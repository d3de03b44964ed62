/** The users-management page: its component state and the handlers that
    fetch, create, update and delete users and move between pages. */
module Users {
  import opened Outcomes
  import opened Pagination

  /** A user record as the page receives it from the `users` service. */
  datatype User = User(id: string, email: string, password: Option<string>, createdAt: Option<string>)

  /** The create form's fields. */
  datatype NewUser = NewUser(email: string, password: string)

  /** The `{ $limit, $skip }` query of a `find` on `users`. */
  datatype FindQuery = FindQuery(limit: int, skip: int)

  /** A paginated `find` response. */
  datatype FindResult = FindResult(total: nat, limit: int, skip: int, data: seq<User>)

  /** A `patch` sent to `users`: the id and the edited email. */
  datatype PatchCall = PatchCall(id: string, email: string)

  /** A notification shown to the user. */
  datatype Toast = SuccessToast(text: string) | ErrorToast(text: string)

  const FetchFailedText: string := "Failed to fetch users"
  const CreatedText: string := "User created successfully"
  const CreateFailedText: string := "Failed to create user"
  const UpdatedText: string := "User updated successfully"
  const UpdateFailedText: string := "Failed to update user"
  const InvalidIdText: string := "Invalid user ID"
  const DeletedText: string := "User deleted successfully"
  const DeleteFailedText: string := "Failed to delete user"

  /** The list part of the page state that a fetch rewrites. */
  datatype ListView = ListView(users: seq<User>, total: nat, currentPage: int, isLoading: bool)

  /** A fetch only goes out once authentication has settled on a user. */
  predicate FetchAllowed(authLoading: bool, signedIn: bool) {
    !authLoading && signedIn
  }

  /** The list after an allowed fetch of `page` answered by `reply`: a
      response replaces users, total and page; an error keeps them; the
      loading flag is cleared either way. */
  function Fetched(before: ListView, page: int, reply: Outcome<FindResult>): ListView {
    match reply
    case Ok(response) => ListView(response.data, response.total, page, false)
    case Err(_) => before.(isLoading := false)
  }

  /** Notifications raised by a fetch. */
  function FetchToasts(allowed: bool, reply: Outcome<FindResult>): seq<Toast> {
    if allowed && reply.Err? then [ErrorToast(FetchFailedText)] else []
  }

  /** The message of a failed delete, or a fallback when it has none. */
  function DeleteErrorText(message: string): (text: string)
    ensures text != ""
    ensures message != "" ==> text == message
    ensures message == "" ==> text == DeleteFailedText
  {
    if message != "" then message else DeleteFailedText
  }

  class UsersPage {
    var users: seq<User>
    var isEditing: Option<string>
    var newUser: NewUser
    var editEmail: string
    var total: nat
    var currentPage: int
    var isLoading: bool

    function View(): ListView
      reads this
    {
      ListView(users, total, currentPage, isLoading)
    }

    /** The forms are left alone. */
    ghost predicate FormsAre(editing: Option<string>, form: NewUser, email: string)
      reads this
    {
      isEditing == editing && newUser == form && editEmail == email
    }

    /** The state left by `FetchUsers(page)` started from `before`, and the
        query it sent. */
    ghost predicate Refreshed(before: ListView, page: int, authLoading: bool, signedIn: bool,
                              reply: Outcome<FindResult>, query: Option<FindQuery>)
      reads this
    {
      if FetchAllowed(authLoading, signedIn) then
        query == Some(FindQuery(Limit, Skip(page))) && View() == Fetched(before, page, reply)
      else
        query == None && View() == before
    }

    constructor ()
      ensures users == [] && total == 0 && currentPage == 1 && !isLoading
      ensures FormsAre(None, NewUser("", ""), "")
    {
      users := [];
      isEditing := None;
      newUser := NewUser("", "");
      editEmail := "";
      total := 0;
      currentPage := 1;
      isLoading := false;
    }

    /** Fetch page `page` of the users, when authentication allows it. */
    method FetchUsers(page: int, authLoading: bool, signedIn: bool, reply: Outcome<FindResult>)
      returns (query: Option<FindQuery>, toasts: seq<Toast>)
      modifies this
      ensures Refreshed(old(View()), page, authLoading, signedIn, reply, query)
      ensures toasts == FetchToasts(FetchAllowed(authLoading, signedIn), reply)
      ensures FormsAre(old(isEditing), old(newUser), old(editEmail))
      ensures FetchAllowed(authLoading, signedIn) ==> !isLoading
    {
      if authLoading || !signedIn {
        return None, [];
      }
      isLoading := true;
      var skip := Skip(page);
      query := Some(FindQuery(Limit, skip));
      match reply {
        case Ok(response) =>
          users := response.data;
          total := response.total;
          currentPage := page;
          toasts := [];
        case Err(_) =>
          toasts := [ErrorToast(FetchFailedText)];
      }
      isLoading := false;
    }

    /** The effect that refetches whenever the page or the signed-in user
        changes: it fetches the current page. The offset is negative
        exactly when the current page is below 1. */
    method RefreshEffect(authLoading: bool, signedIn: bool, reply: Outcome<FindResult>)
      returns (query: Option<FindQuery>, toasts: seq<Toast>)
      modifies this
      ensures Refreshed(old(View()), old(currentPage), authLoading, signedIn, reply, query)
      ensures toasts == FetchToasts(FetchAllowed(authLoading, signedIn), reply)
      ensures FormsAre(old(isEditing), old(newUser), old(editEmail))
      ensures query.Some? ==> query.value.limit == Limit && (query.value.skip >= 0 <==> old(currentPage) >= 1)
    {
      query, toasts := FetchUsers(currentPage, authLoading, signedIn, reply);
    }

    /** Create a user from the form; on success clear the form and
        refetch page 1. */
    method HandleCreate(authLoading: bool, signedIn: bool, createReply: Outcome<()>,
                        fetchReply: Outcome<FindResult>)
      returns (created: NewUser, query: Option<FindQuery>, toasts: seq<Toast>)
      modifies this
      ensures created == old(newUser)
      ensures createReply.Err? ==>
        query == None && toasts == [ErrorToast(CreateFailedText)] && unchanged(this)
      ensures createReply.Ok? ==>
        && FormsAre(old(isEditing), NewUser("", ""), old(editEmail))
        && Refreshed(old(View()), 1, authLoading, signedIn, fetchReply, query)
        && toasts == [SuccessToast(CreatedText)] + FetchToasts(FetchAllowed(authLoading, signedIn), fetchReply)
    {
      created := newUser;
      match createReply {
        case Err(_) =>
          query, toasts := None, [ErrorToast(CreateFailedText)];
        case Ok(_) =>
          newUser := NewUser("", "");
          var more;
          query, more := FetchUsers(1, authLoading, signedIn, fetchReply);
          toasts := [SuccessToast(CreatedText)] + more;
      }
    }

    /** Save the edited email of the user being edited; on success leave
        edit mode and refetch page 1. Nothing happens outside edit mode. */
    method HandleUpdate(authLoading: bool, signedIn: bool, patchReply: Outcome<()>,
                        fetchReply: Outcome<FindResult>)
      returns (patched: Option<PatchCall>, query: Option<FindQuery>, toasts: seq<Toast>)
      modifies this
      ensures !Truthy(old(isEditing)) ==>
        patched == None && query == None && toasts == [] && unchanged(this)
      ensures Truthy(old(isEditing)) ==>
        patched == Some(PatchCall(old(isEditing).value, old(editEmail)))
      ensures Truthy(old(isEditing)) && patchReply.Err? ==>
        query == None && toasts == [ErrorToast(UpdateFailedText)] && unchanged(this)
      ensures Truthy(old(isEditing)) && patchReply.Ok? ==>
        && FormsAre(None, old(newUser), old(editEmail))
        && Refreshed(old(View()), 1, authLoading, signedIn, fetchReply, query)
        && toasts == [SuccessToast(UpdatedText)] + FetchToasts(FetchAllowed(authLoading, signedIn), fetchReply)
    {
      if !Truthy(isEditing) {
        return None, None, [];
      }
      patched := Some(PatchCall(isEditing.value, editEmail));
      match patchReply {
        case Err(_) =>
          query, toasts := None, [ErrorToast(UpdateFailedText)];
        case Ok(_) =>
          isEditing := None;
          var more;
          query, more := FetchUsers(1, authLoading, signedIn, fetchReply);
          toasts := [SuccessToast(UpdatedText)] + more;
      }
    }

    /** Delete a user after confirmation and refetch the current page. A
        missing id only raises a notice; every other path ends with the
        loading flag cleared. */
    method HandleDelete(userId: Option<string>, confirmed: bool, removeReply: Outcome<()>,
                        authLoading: bool, signedIn: bool, fetchReply: Outcome<FindResult>)
      returns (removed: Option<string>, query: Option<FindQuery>, toasts: seq<Toast>)
      modifies this
      ensures FormsAre(old(isEditing), old(newUser), old(editEmail))
      ensures !Truthy(userId) ==>
        removed == None && query == None && toasts == [ErrorToast(InvalidIdText)] && unchanged(this)
      ensures Truthy(userId) ==> !isLoading
      ensures Truthy(userId) && !confirmed ==>
        removed == None && query == None && toasts == [] && View() == old(View()).(isLoading := false)
      ensures Truthy(userId) && confirmed ==> removed == userId
      ensures Truthy(userId) && confirmed && removeReply.Err? ==>
        && query == None
        && toasts == [ErrorToast(DeleteErrorText(removeReply.message))]
        && View() == old(View()).(isLoading := false)
      ensures Truthy(userId) && confirmed && removeReply.Ok? ==>
        && toasts == [SuccessToast(DeletedText)] + FetchToasts(FetchAllowed(authLoading, signedIn), fetchReply)
        && Refreshed(old(View()).(isLoading := false), old(currentPage), authLoading, signedIn, fetchReply, query)
    {
      if !Truthy(userId) {
        return None, None, [ErrorToast(InvalidIdText)];
      }
      removed, query, toasts := None, None, [];
      if confirmed {
        isLoading := true;
        removed := userId;
        match removeReply {
          case Err(message) =>
            toasts := [ErrorToast(DeleteErrorText(message))];
          case Ok(_) =>
            toasts := [SuccessToast(DeletedText)];
            var more;
            query, more := FetchUsers(currentPage, authLoading, signedIn, fetchReply);
            toasts := toasts + more;
        }
      }
      isLoading := false;
    }

    /** Enter edit mode for `u`, seeding the edit form with its email. */
    method StartEdit(u: User)
      modifies this
      ensures isEditing == Some(u.id) && editEmail == u.email
      ensures newUser == old(newUser) && View() == old(View())
    {
      isEditing := Some(u.id);
      editEmail := u.email;
    }

    /** The Cancel button of the row being edited. */
    method CancelEdit()
      modifies this
      ensures isEditing == None
      ensures newUser == old(newUser) && editEmail == old(editEmail) && View() == old(View())
    {
      isEditing := None;
    }

    /** The Previous button: disabled on page 1, otherwise one page back
        but never below page 1 (from page 0 it moves forward to page 1). */
    method ClickPrevious() returns (enabled: bool)
      modifies this
      ensures enabled <==> old(currentPage) != 1
      ensures currentPage == if enabled then PreviousPage(old(currentPage)) else old(currentPage)
      ensures currentPage >= 1 || currentPage == old(currentPage)
      ensures old(currentPage) >= 1 ==> currentPage <= old(currentPage)
      ensures FormsAre(old(isEditing), old(newUser), old(editEmail))
      ensures users == old(users) && total == old(total) && isLoading == old(isLoading)
    {
      enabled := !PreviousDisabled(currentPage);
      if enabled {
        currentPage := PreviousPage(currentPage);
      }
    }

    /** The Next button as written: disabled on the last page, otherwise
        `min(totalPages, page + 1)`. On an empty list page 1 is not the
        last page (there are none), so it moves to page 0. */
    method ClickNext() returns (enabled: bool)
      modifies this
      ensures enabled <==> old(currentPage) != TotalPages(total)
      ensures currentPage == if enabled then NextPage(old(currentPage), TotalPages(total)) else old(currentPage)
      ensures enabled ==> currentPage <= TotalPages(total)
      ensures FormsAre(old(isEditing), old(newUser), old(editEmail))
      ensures users == old(users) && total == old(total) && isLoading == old(isLoading)
    {
      enabled := !NextDisabled(currentPage, TotalPages(total));
      if enabled {
        currentPage := NextPage(currentPage, TotalPages(total));
      }
    }

    /** The Next button with the clamp of `NextPageInRange`: it never takes
        a page of at least 1 below 1. */
    method ClickNextInRange() returns (enabled: bool)
      modifies this
      ensures enabled <==> old(currentPage) != TotalPages(total)
      ensures currentPage == if enabled then NextPageInRange(old(currentPage), TotalPages(total)) else old(currentPage)
      ensures old(currentPage) >= 1 ==> currentPage >= 1
      ensures FormsAre(old(isEditing), old(newUser), old(editEmail))
      ensures users == old(users) && total == old(total) && isLoading == old(isLoading)
    {
      enabled := !NextDisabled(currentPage, TotalPages(total));
      if enabled {
        currentPage := NextPageInRange(currentPage, TotalPages(total));
      }
    }

    /** One of the numbered page buttons, which exist for pages
        1..TotalPages(total) only. */
    method ClickPage(page: int)
      requires 1 <= page <= TotalPages(total)
      modifies this
      ensures currentPage == page
      ensures FormsAre(old(isEditing), old(newUser), old(editEmail))
      ensures users == old(users) && total == old(total) && isLoading == old(isLoading)
    {
      currentPage := page;
    }
  }

  /** On a fresh page with no users, Next moves to page 0 and the refetch
      that follows asks for offset -10. */
  method EmptyListNextSendsNegativeSkip() returns (enabled: bool, page: int, query: Option<FindQuery>)
    ensures enabled && page == 0
    ensures query == Some(FindQuery(Limit, -10))
  {
    var view := new UsersPage();
    enabled := view.ClickNext();
    page := view.currentPage;
    var toasts;
    query, toasts := view.RefreshEffect(false, true, Err("no response"));
  }
}
