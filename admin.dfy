/** The admin dashboard's user table: approving or suspending a user by id, and
    the searched and filtered view of the table. */
module Admin {
  import opened Text
  import opened Lists

  datatype AdminUser = AdminUser(
    id: int, name: string, email: string, userType: string, status: string,
    joinDate: string, lastActive: string, projects: int, rating: real)

  /** The status an action gives: 'approve' verifies, every other action suspends. */
  function StatusAfter(action: string): (r: string)
    ensures action == "approve" <==> r == "verified"
    ensures action != "approve" <==> r == "suspended"
  {
    if action == "approve" then "verified" else "suspended"
  }

  /** `handleUserAction`'s new list: each user with the id gets the new status. */
  function ApplyUserAction(users: seq<AdminUser>, userId: int, action: string): (r: seq<AdminUser>)
    ensures |r| == |users|
    ensures forall i :: 0 <= i < |r| ==> r[i].(status := users[i].status) == users[i]
    ensures forall i :: 0 <= i < |r| && users[i].id == userId ==> r[i].status == StatusAfter(action)
    ensures forall i :: 0 <= i < |r| && users[i].id != userId ==> r[i] == users[i]
  {
    seq(|users|, i requires 0 <= i < |users| =>
      if users[i].id == userId then users[i].(status := StatusAfter(action)) else users[i])
  }

  /** Only the last of several actions on one user counts; in particular the same
      action twice is the action once. */
  lemma LastActionWins(users: seq<AdminUser>, userId: int, first: string, second: string)
    ensures ApplyUserAction(ApplyUserAction(users, userId, first), userId, second)
         == ApplyUserAction(users, userId, second)
    ensures ApplyUserAction(ApplyUserAction(users, userId, second), userId, second)
         == ApplyUserAction(users, userId, second)
  {
  }

  /** Actions on two different users do not interfere. */
  lemma ActionsOnDifferentUsersCommute(users: seq<AdminUser>, a: int, b: int, actionA: string, actionB: string)
    requires a != b
    ensures ApplyUserAction(ApplyUserAction(users, a, actionA), b, actionB)
         == ApplyUserAction(ApplyUserAction(users, b, actionB), a, actionA)
  {
  }

  /** The row test of `filteredUsers`: the search matches the name or the email,
      ignoring case, and the filter is 'all', the user's type or the user's status. */
  predicate UserMatches(searchTerm: string, selectedFilter: string, user: AdminUser) {
    && (ContainsIgnoringCase(user.name, searchTerm) || ContainsIgnoringCase(user.email, searchTerm))
    && (selectedFilter == "all" || user.userType == selectedFilter || user.status == selectedFilter)
  }

  function Matcher(searchTerm: string, selectedFilter: string): AdminUser -> bool {
    user => UserMatches(searchTerm, selectedFilter, user)
  }

  /** `filteredUsers`: an order-preserving sub-list holding exactly the matching users. */
  function FilterUsers(users: seq<AdminUser>, searchTerm: string, selectedFilter: string): (r: seq<AdminUser>)
    ensures IsSubsequence(r, users)
    ensures forall u :: u in r <==> u in users && UserMatches(searchTerm, selectedFilter, u)
  {
    Filter(users, Matcher(searchTerm, selectedFilter))
  }

  /** With no search and the 'all' filter, the table shows every user. */
  lemma EmptySearchShowsAll(users: seq<AdminUser>)
    ensures FilterUsers(users, "", "all") == users
  {
    FilterAll(users, Matcher("", "all"));
  }

  /** The admin table: the user list and the two controls of the filtered view. */
  class AdminDashboard {
    var users: seq<AdminUser>
    var searchTerm: string
    var selectedFilter: string

    /** The table starts with the given users, an empty search and the 'all' filter. */
    constructor (initialUsers: seq<AdminUser>)
      ensures users == initialUsers && searchTerm == "" && selectedFilter == "all"
    {
      users := initialUsers;
      searchTerm := "";
      selectedFilter := "all";
    }

    /** `handleUserAction`: only the list changes, as `ApplyUserAction` says. */
    method HandleUserAction(userId: int, action: string)
      modifies this
      ensures users == ApplyUserAction(old(users), userId, action)
      ensures searchTerm == old(searchTerm) && selectedFilter == old(selectedFilter)
    {
      users := ApplyUserAction(users, userId, action);
    }

    /** The search box. */
    method SetSearchTerm(term: string)
      modifies this
      ensures searchTerm == term && users == old(users) && selectedFilter == old(selectedFilter)
    {
      searchTerm := term;
    }

    /** The filter drop-down. */
    method SetSelectedFilter(filter: string)
      modifies this
      ensures selectedFilter == filter && users == old(users) && searchTerm == old(searchTerm)
    {
      selectedFilter := filter;
    }
  }
}
