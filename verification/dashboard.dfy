/** The dashboard's subtitle: the signed-in user's name and branch. */
module Dashboard {
  import opened Wrappers
  import opened Text
  import opened AuthService

  /** `displayName`: the trimmed full name when either part is non-empty, else
      the e-mail (`?? ''`). */
  function DisplayName(user: Option<AuthUser>): (r: string)
    ensures var first := if user.Some? then user.value.firstName else None;
      var last := if user.Some? then user.value.lastName else None;
      var email := if user.Some? then user.value.email else None;
      && (HasName(first, last) ==> r == JoinName(first, last))
      && (!HasName(first, last) ==> r == email.GetOr(""))
  {
    var first := if user.Some? then user.value.firstName else None;
    var last := if user.Some? then user.value.lastName else None;
    var email := if user.Some? then user.value.email else None;
    if HasName(first, last) then JoinName(first, last) else email.GetOr("")
  }

  /** With `''` as the default, the dashboard's `??` on the e-mail agrees with the
      `||` the order lists use: the shared customer label with an empty fallback. */
  lemma DisplayNameIsNameOrEmail(user: Option<AuthUser>)
    ensures var first := if user.Some? then user.value.firstName else None;
      var last := if user.Some? then user.value.lastName else None;
      var email := if user.Some? then user.value.email else None;
      DisplayName(user) == NameOrEmail(first, last, email, "")
  {
  }

  /** `branchName`: the branch's name, `''` when absent. */
  function BranchName(user: Option<AuthUser>): (r: string)
    ensures user.Some? && Truthy(user.value.branchName) ==> r == user.value.branchName.value
    ensures !(user.Some? && Truthy(user.value.branchName)) ==> r == ""
  {
    TruthyOr([if user.Some? then user.value.branchName else None], "")
  }

  /** The subtitle line: the name, the separator when both parts are non-empty,
      then the branch. */
  datatype Subtitle = Subtitle(name: string, separator: bool, branch: string)

  function SubtitleOf(user: Option<AuthUser>): (r: Option<Subtitle>)
    ensures r.Some? <==> DisplayName(user) != "" || BranchName(user) != ""
    ensures r.Some? ==> r.value.name == DisplayName(user) && r.value.branch == BranchName(user)
    ensures r.Some? ==> (r.value.separator <==> r.value.name != "" && r.value.branch != "")
  {
    var name, branch := DisplayName(user), BranchName(user);
    if name == "" && branch == "" then None
    else Some(Subtitle(name, name != "" && branch != "", branch))
  }

  /** Signed out there is no subtitle. A user with no name but an e-mail is shown by
      e-mail, with the separator exactly when the branch has a name. */
  lemma SubtitleFallsBackToEmail(u: AuthUser)
    requires !HasName(u.firstName, u.lastName) && Truthy(u.email)
    ensures SubtitleOf(None) == None
    ensures SubtitleOf(Some(u)) == Some(Subtitle(u.email.value, Truthy(u.branchName), BranchName(Some(u))))
  {
  }
}
