/** The admin's user list (`src/components/admin/ViewUser.jsx`): the users,
    newest first, five at a time unless "Show More" is on, and the
    confirm-then-delete dialogs. */
module ViewUser {
  import opened JsValues
  import opened Seqs
  import opened Dates
  import opened Http
  import opened UserStore
  import opened AdminDashboard

  /** `sortedUsers.slice(0, showMore ? sortedUsers.length : 5)`. */
  function Displayed(users: seq<Record>, created: Record -> DateTime, showMore: bool): (r: seq<Record>)
    ensures r <= SortedUsers(users, created)
    ensures showMore ==> multiset(r) == multiset(users)
    ensures !showMore ==> |r| == if |users| < PageSize then |users| else PageSize
  {
    Prefix(SortedUsers(users, created), if showMore then |users| else PageSize)
  }

  /** A user left off the short list joined no later than every user on it. */
  lemma {:induction false} HiddenAreOlder(users: seq<Record>, created: Record -> DateTime, u: Record, j: int)
    requires u in Displayed(users, created, false)
    requires |Displayed(users, created, false)| <= j < |users|
    ensures Ordinal(created(SortedUsers(users, created)[j])) <= Ordinal(created(u))
  {
    var d := Displayed(users, created, false);
    var i :| 0 <= i < |d| && d[i] == u;
    assert SortedUsers(users, created)[i] == u;
  }

  /** The page's state. */
  class UserList {
    var showMore: bool
    var displayedUsers: seq<Record>
    var selectedUser: Value
    var confirmDialogOpen: bool
    var isDeleting: bool
    var successDialogOpen: bool
    var errorDialogOpen: bool

    constructor()
      ensures !showMore && displayedUsers == [] && selectedUser == Null
      ensures !confirmDialogOpen && !isDeleting && !successDialogOpen && !errorDialogOpen
    {
      showMore, displayedUsers, selectedUser := false, [], Null;
      confirmDialogOpen, isDeleting, successDialogOpen, errorDialogOpen := false, false, false, false;
    }

    /** The effect on `[users, showMore]`. */
    method OnUsers(users: seq<Record>, created: Record -> DateTime)
      modifies this
      ensures displayedUsers == Displayed(users, created, showMore)
      ensures showMore == old(showMore) && selectedUser == old(selectedUser)
      ensures confirmDialogOpen == old(confirmDialogOpen) && isDeleting == old(isDeleting)
      ensures successDialogOpen == old(successDialogOpen) && errorDialogOpen == old(errorDialogOpen)
    {
      displayedUsers := Displayed(users, created, showMore);
    }

    /** `toggleShowMore`. */
    method ToggleShowMore()
      modifies this
      ensures showMore == !old(showMore)
      ensures displayedUsers == old(displayedUsers) && selectedUser == old(selectedUser)
      ensures confirmDialogOpen == old(confirmDialogOpen) && isDeleting == old(isDeleting)
      ensures successDialogOpen == old(successDialogOpen) && errorDialogOpen == old(errorDialogOpen)
    {
      showMore := !showMore;
    }

    /** `handleOpenConfirmDialog(id)`. */
    method OpenConfirm(id: Value)
      modifies this
      ensures selectedUser == id && confirmDialogOpen
      ensures showMore == old(showMore) && displayedUsers == old(displayedUsers)
      ensures isDeleting == old(isDeleting)
      ensures successDialogOpen == old(successDialogOpen) && errorDialogOpen == old(errorDialogOpen)
    {
      selectedUser, confirmDialogOpen := id, true;
    }

    /** `handleConfirmDelete`: the store is asked to delete the selected user.
        The store never throws, so the success dialog opens even when nothing
        was deleted, and the error dialog never does; the confirm dialog
        closes and `isDeleting` ends false. */
    method ConfirmDelete(store: UserStore, token: Option<string>, outcome: Response<()>)
      modifies this, store
      ensures store.users == if AuthStore.HasToken(token) && outcome.Success?
                             then RecordLists.RemoveId(old(store.users), old(selectedUser))
                             else old(store.users)
      ensures successDialogOpen && errorDialogOpen == old(errorDialogOpen)
      ensures !confirmDialogOpen && !isDeleting
      ensures selectedUser == old(selectedUser) && showMore == old(showMore) && displayedUsers == old(displayedUsers)
    {
      isDeleting := true;
      var _ := store.DeleteUser(token, selectedUser, outcome);
      successDialogOpen := true;
      isDeleting := false;
      confirmDialogOpen := false;
    }

    /** `handleCancelDelete`. */
    method CancelDelete()
      modifies this
      ensures !confirmDialogOpen
      ensures selectedUser == old(selectedUser) && isDeleting == old(isDeleting)
      ensures successDialogOpen == old(successDialogOpen) && errorDialogOpen == old(errorDialogOpen)
      ensures showMore == old(showMore) && displayedUsers == old(displayedUsers)
    {
      confirmDialogOpen := false;
    }
  }
}
