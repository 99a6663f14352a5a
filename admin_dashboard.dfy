/** The admin dashboard: the users list, the role names it shows, the static
    roles table and the tab bar. */
module AdminDashboard {
  import opened Js
  import opened Text
  import opened Dashboard
  import CreateUser

  const UsersTab := "users"
  const RolesTab := "roles"
  const ProfileTab := "profile"
  const InitialTab := UsersTab
  const CreateUserPath := "/admin/create-user"

  const Tabs: seq<Tab> := [Tab(UsersTab, "users"), Tab(RolesTab, "user roles"), Tab(ProfileTab, "profile")]

  /** `getRoleName(u.user_role_id)`: a `switch`, so only the numbers 1, 2 and 3 match
      (the text "2" or a missing id does not). */
  function RoleName(roleId: Option<Json>): (name: string)
    ensures roleId == Some(JNum(1)) <==> name == "Admin"
    ensures roleId == Some(JNum(2)) <==> name == "Consultant"
    ensures roleId == Some(JNum(3)) <==> name == "Farmer"
    ensures name == "Unknown" <==> !(roleId.Some? && roleId.value.JNum? && 1 <= roleId.value.n <= 3)
  {
    if roleId == Some(JNum(1)) then "Admin"
    else if roleId == Some(JNum(2)) then "Consultant"
    else if roleId == Some(JNum(3)) then "Farmer"
    else "Unknown"
  }

  /** The "user roles" tab: a fixed table of id and role name. */
  const StaticRoles: seq<(int, string)> := [(1, "Admin"), (2, "Farmer"), (3, "Consultant")]

  /** The users list and the create-user form agree on every role id. */
  lemma RoleNamesMatchCreateForm(i: nat)
    requires i < |CreateUser.RoleOptions|
    ensures CreateUser.RoleOptions[i].0 == NatToString(i + 1)
    ensures RoleName(Some(JNum(i + 1))) == CreateUser.RoleOptions[i].1
  {
  }

  /** The static roles table disagrees with the users list for ids 2 and 3 and
      agrees only for id 1. */
  lemma StaticRolesDisagree()
    ensures StaticRoles[0].1 == RoleName(Some(JNum(StaticRoles[0].0)))
    ensures StaticRoles[1].1 != RoleName(Some(JNum(StaticRoles[1].0)))
    ensures StaticRoles[2].1 != RoleName(Some(JNum(StaticRoles[2].0)))
    ensures StaticRoles[1].1 == RoleName(Some(JNum(StaticRoles[2].0)))
    ensures StaticRoles[2].1 == RoleName(Some(JNum(StaticRoles[1].0)))
  {
  }

  /** The "+ Create User" button and where it leads; shown on the users tab only. */
  function CreateButton(activeTab: string): (to: Option<string>)
    ensures to.Some? <==> activeTab == UsersTab
    ensures to.Some? ==> to.value == CreateUserPath
  {
    if activeTab == UsersTab then Some(CreateUserPath) else None
  }

  /** The page opens on the users tab, so the create button is there at first. */
  lemma OpensWithCreateButton()
    ensures InitialTab == Tabs[0].id
    ensures CreateButton(InitialTab) == Some(CreateUserPath)
  {
  }

  /** The roles tab is shown as "User roles": only the first letter changes. */
  lemma RolesTabLabel()
    ensures Capitalize(Tabs[1].title) == "User roles"
  {
    assert Tabs[1].title[0] == 'u';
  }
}
