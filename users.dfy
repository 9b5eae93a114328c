/** The paginated user list: the list transforms applied after each successful
    remote call, the page query, and the page's state cells with their handlers. */
module Users {
  import opened Remote
  import opened Records

  // ---------------------------------------------------------------------------
  // List transforms

  /** `users.filter(u => u.id !== id)` */
  function DeleteById(users: seq<UserRecord>, id: int): (r: seq<UserRecord>)
    ensures |r| <= |users|
    ensures forall u :: u in r <==> u in users && u.id != id
  {
    if users == [] then []
    else (if users[0].id != id then [users[0]] else []) + DeleteById(users[1..], id)
  }

  /** `users.map(u => u.id === d.id ? d : u)` */
  function ReplaceById(users: seq<UserRecord>, d: UserRecord): (r: seq<UserRecord>)
    ensures |r| == |users|
    ensures forall i :: 0 <= i < |users| ==> r[i] == if users[i].id == d.id then d else users[i]
  {
    if users == [] then []
    else [if users[0].id == d.id then d else users[0]] + ReplaceById(users[1..], d)
  }

  /** How many entries carry the given id. */
  function CountId(users: seq<UserRecord>, id: int): nat
  {
    if users == [] then 0 else (if users[0].id == id then 1 else 0) + CountId(users[1..], id)
  }

  /** Deleting works entry by entry, so the survivors keep their order. */
  lemma {:induction false} DeleteByIdAppend(a: seq<UserRecord>, b: seq<UserRecord>, id: int)
    ensures DeleteById(a + b, id) == DeleteById(a, id) + DeleteById(b, id)
    decreases |a|
  {
    if a == [] {
      assert a + b == b;
    } else {
      assert (a + b)[1..] == a[1..] + b;
      DeleteByIdAppend(a[1..], b, id);
    }
  }

  /** Exactly the entries carrying the id are removed. */
  lemma {:induction false} DeleteByIdCount(users: seq<UserRecord>, id: int)
    ensures |DeleteById(users, id)| + CountId(users, id) == |users|
    ensures CountId(DeleteById(users, id), id) == 0
    decreases |users|
  {
    if users != [] {
      DeleteByIdCount(users[1..], id);
      var rest := DeleteById(users[1..], id);
      if users[0].id != id {
        assert DeleteById(users, id) == [users[0]] + rest;
        assert ([users[0]] + rest)[1..] == rest;
      } else {
        assert DeleteById(users, id) == rest;
      }
    }
  }

  /** A list holding no entry with the id is left as it is. */
  lemma {:induction false} DeleteByIdAbsent(users: seq<UserRecord>, id: int)
    requires forall u :: u in users ==> u.id != id
    ensures DeleteById(users, id) == users
    decreases |users|
  {
    if users != [] {
      assert users[0] in users;
      assert forall u :: u in users[1..] ==> u in users;
      DeleteByIdAbsent(users[1..], id);
      assert users == [users[0]] + users[1..];
    }
  }

  lemma {:induction false} DeleteByIdIdempotent(users: seq<UserRecord>, id: int)
    ensures DeleteById(DeleteById(users, id), id) == DeleteById(users, id)
  {
    DeleteByIdAbsent(DeleteById(users, id), id);
  }

  /** Replacing twice with the same record is replacing once, and the record is in the
      result exactly when some entry carried its id. */
  lemma ReplaceByIdProperties(users: seq<UserRecord>, d: UserRecord)
    ensures ReplaceById(ReplaceById(users, d), d) == ReplaceById(users, d)
    ensures (exists i :: 0 <= i < |users| && users[i].id == d.id) ==> d in ReplaceById(users, d)
    ensures (forall u :: u in users ==> u.id != d.id) ==> ReplaceById(users, d) == users
  {
    var r := ReplaceById(users, d);
    if exists i :: 0 <= i < |users| && users[i].id == d.id {
      var i :| 0 <= i < |users| && users[i].id == d.id;
      assert r[i] == d;
    }
  }

  // ---------------------------------------------------------------------------
  // Paging

  /** Rows skipped by the query for a page: `page * rowsPerPage`. */
  function Skip(page: int, rowsPerPage: int): int
  {
    page * rowsPerPage
  }

  lemma MulMonotone(a: int, b: int, r: int)
    requires a <= b && r >= 0
    ensures a * r <= b * r
  {
    assert b * r - a * r == (b - a) * r;
  }

  /** With a positive page size, consecutive pages are adjacent windows and every row
      index falls in exactly the window of page `index / rowsPerPage`. */
  lemma PagesTile(page: nat, rowsPerPage: int, index: nat)
    requires rowsPerPage > 0
    ensures Skip(page + 1, rowsPerPage) == Skip(page, rowsPerPage) + rowsPerPage
    ensures Skip(index / rowsPerPage, rowsPerPage) <= index < Skip(index / rowsPerPage, rowsPerPage) + rowsPerPage
    ensures Skip(page, rowsPerPage) <= index < Skip(page, rowsPerPage) + rowsPerPage ==> page == index / rowsPerPage
  {
    var r := rowsPerPage;
    var q := index / r;
    assert (page + 1) * r == page * r + r;
    assert (q + 1) * r == q * r + r;
    assert index == q * r + index % r;
    if page < q {
      MulMonotone(page + 1, q, r);
    } else if q < page {
      MulMonotone(q + 1, page, r);
    }
  }

  /** The list requests the service sends. */
  datatype Request =
    | FetchUsers(limit: int, skip: int)
    | DeleteUser(id: int)
    | UpdateUser(id: int, body: UserRecord)
    | AddUser(body: UserRecord)

  /** A successful page fetch: the rows of the page and the total number of users. */
  datatype UsersReply = UsersReply(users: seq<UserRecord>, total: int)

  /** The trivial body of a successful delete response, which is not read. */
  datatype Deleted = Deleted

  const RowsPerPageOptions: seq<int> := [5, 10, 25]

  // ---------------------------------------------------------------------------
  // The page

  class UsersPage {
    var users: seq<UserRecord>
    var loading: bool
    var error: string
    var page: int
    var rowsPerPage: int
    var totalUsers: int
    var openForm: bool
    var currentUser: Option<UserRecord>
    var deleteDialog: bool
    var userToDelete: Option<UserRecord>
    var success: string

    constructor ()
      ensures users == [] && loading && error == "" && success == ""
      ensures page == 0 && rowsPerPage == 5 && rowsPerPage in RowsPerPageOptions && totalUsers == 0
      ensures !openForm && currentUser.None? && !deleteDialog && userToDelete.None?
    {
      users := [];
      loading := true;
      error := "";
      page := 0;
      rowsPerPage := 5;
      totalUsers := 0;
      openForm := false;
      currentUser := None;
      deleteDialog := false;
      userToDelete := None;
      success := "";
    }

    /** The fetch effect, run whenever the token, the page or the page size changes. */
    method FetchUsers(reply: Reply<UsersReply>) returns (request: Request)
      modifies this`users, this`totalUsers, this`error, this`loading
      ensures request == Request.FetchUsers(rowsPerPage, Skip(page, rowsPerPage))
      ensures !loading
      ensures reply.Ok? ==> users == reply.data.users && totalUsers == reply.data.total && error == old(error)
      ensures reply.Fail? ==>
        && users == old(users) && totalUsers == old(totalUsers)
        && error == MessageOr(reply.message, "Failed to fetch users")
    {
      request := Request.FetchUsers(rowsPerPage, Skip(page, rowsPerPage));
      match reply {
        case Ok(data) =>
          users := data.users;
          totalUsers := data.total;
        case Fail(m) =>
          error := MessageOr(m, "Failed to fetch users");
      }
      loading := false;
    }

    method ChangePage(newPage: int)
      modifies this`page
      ensures page == newPage
    {
      page := newPage;
    }

    /** A new page size always shows the first page again. */
    method ChangeRowsPerPage(size: int)
      modifies this`rowsPerPage, this`page
      ensures rowsPerPage == size && page == 0
      ensures Skip(page, rowsPerPage) == 0
    {
      rowsPerPage := size;
      page := 0;
    }

    /** The Edit button of a row. */
    method Edit(user: UserRecord)
      modifies this`currentUser, this`openForm
      ensures currentUser == Some(user) && openForm
    {
      currentUser := Some(user);
      openForm := true;
    }

    /** The Add User button. */
    method OpenAddForm()
      modifies this`currentUser, this`openForm
      ensures currentUser.None? && openForm
    {
      currentUser := None;
      openForm := true;
    }

    /** Closing the form without submitting. */
    method CloseForm()
      modifies this`currentUser, this`openForm
      ensures currentUser.None? && !openForm
    {
      openForm := false;
      currentUser := None;
    }

    /** The Delete button of a row: asks for confirmation. */
    method DeleteClick(user: UserRecord)
      modifies this`userToDelete, this`deleteDialog
      ensures userToDelete == Some(user) && deleteDialog
    {
      userToDelete := Some(user);
      deleteDialog := true;
    }

    /** Dismissing the confirmation dialog; the chosen user stays recorded. */
    method CancelDelete()
      modifies this`deleteDialog
      ensures !deleteDialog
    {
      deleteDialog := false;
    }

    /** The confirmed delete. With no user chosen, reading its id throws before any
        request is sent, and the fallback message is shown. */
    method Delete(reply: Reply<Deleted>) returns (request: Option<Request>)
      modifies this`users, this`totalUsers, this`success, this`error, this`deleteDialog, this`userToDelete
      ensures !deleteDialog && userToDelete.None?
      ensures request == if old(userToDelete).Some? then Some(DeleteUser(old(userToDelete).value.id)) else None
      ensures old(userToDelete).Some? && reply.Ok? ==>
        && users == DeleteById(old(users), old(userToDelete).value.id)
        && totalUsers == old(totalUsers) - 1
        && success == "User deleted successfully" && error == old(error)
      ensures old(userToDelete).Some? && reply.Fail? ==>
        && users == old(users) && totalUsers == old(totalUsers) && success == old(success)
        && error == MessageOr(reply.message, "Failed to delete user")
      ensures old(userToDelete).None? ==>
        && users == old(users) && totalUsers == old(totalUsers) && success == old(success)
        && error == "Failed to delete user"
    {
      request := None;
      match userToDelete {
        case None =>
          error := "Failed to delete user";
        case Some(target) =>
          request := Some(DeleteUser(target.id));
          match reply {
            case Ok(_) =>
              users := DeleteById(users, target.id);
              totalUsers := totalUsers - 1;
              success := "User deleted successfully";
            case Fail(m) =>
              error := MessageOr(m, "Failed to delete user");
          }
      }
      deleteDialog := false;
      userToDelete := None;
    }

    /** The form's submit: an update when a user is being edited, an add otherwise. */
    method FormSubmit(userData: UserRecord, reply: Reply<UserRecord>) returns (request: Request)
      modifies this`users, this`totalUsers, this`success, this`error, this`openForm, this`currentUser
      ensures request == if old(currentUser).Some? then UpdateUser(old(currentUser).value.id, userData)
                         else AddUser(userData)
      ensures reply.Ok? && old(currentUser).Some? ==>
        && users == ReplaceById(old(users), reply.data) && totalUsers == old(totalUsers)
        && success == "User updated successfully"
      ensures reply.Ok? && old(currentUser).None? ==>
        && users == [reply.data] + old(users) && totalUsers == old(totalUsers) + 1
        && success == "User added successfully"
      ensures reply.Ok? ==> !openForm && currentUser.None? && error == old(error)
      ensures reply.Fail? ==>
        && users == old(users) && totalUsers == old(totalUsers) && success == old(success)
        && openForm == old(openForm) && currentUser == old(currentUser)
        && error == MessageOr(reply.message, "Operation failed")
    {
      if currentUser.Some? {
        request := UpdateUser(currentUser.value.id, userData);
      } else {
        request := AddUser(userData);
      }
      match reply
      case Ok(data) =>
        if currentUser.Some? {
          users := ReplaceById(users, data);
          success := "User updated successfully";
        } else {
          users := [data] + users;
          totalUsers := totalUsers + 1;
          success := "User added successfully";
        }
        openForm := false;
        currentUser := None;
      case Fail(m) =>
        error := MessageOr(m, "Operation failed");
    }
  }
}
