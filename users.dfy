/**
 * The user management page (src/app/dashboard/users/page.tsx): who may see
 * the user list, the search box, and the guards in front of creating and
 * deleting an account.
 */
module Users {

  import opened Wrappers
  import opened Types
  import opened Seqs
  import opened Text

  /** The user list shows only those whose display name or username contains the search term. */
  function MatchesTerm(term: string): User -> bool {
    (u: User) => ContainsIgnoringCase(u.displayName, term) || ContainsIgnoringCase(u.username, term)
  }

  /** `filteredUsers`: a case-insensitive substring search on display name or username. */
  function SearchUsers(users: seq<User>, term: string): (r: seq<User>)
    ensures IsSubsequence(r, users)
    ensures forall u :: u in r <==>
              u in users && (ContainsIgnoringCase(u.displayName, term) || ContainsIgnoringCase(u.username, term))
    ensures forall u :: multiset(r)[u] == if MatchesTerm(term)(u) then multiset(users)[u] else 0
  {
    FilterIsSubsequence(users, MatchesTerm(term));
    FilterCount(users, MatchesTerm(term));
    Filter(users, MatchesTerm(term))
  }

  /** An empty search box lists every user, in order. */
  lemma EmptySearchListsAll(users: seq<User>)
    ensures SearchUsers(users, "") == users
  {
    forall i | 0 <= i < |users| ensures MatchesTerm("")(users[i]) {
      ContainsIgnoringCaseEmpty(users[i].displayName);
    }
    FilterAll(users, MatchesTerm(""));
  }

  /** The search ignores the case of the term. */
  lemma SearchIgnoresTermCase(users: seq<User>, term: string)
    ensures SearchUsers(users, Lower(term)) == SearchUsers(users, term)
  {
    LowerIdempotent(term);
    FilterExt(users, MatchesTerm(Lower(term)), MatchesTerm(term));
  }

  /** The form of the "add user" dialog. */
  datatype NewUserForm = NewUserForm(username: string, password: string, displayName: string, role: Role)

  /** The form as it starts and as a successful create leaves it: empty fields, role `sale`. */
  const EMPTY_FORM: NewUserForm := NewUserForm("", "", "", Sale)

  /** The row `handleCreateUser` inserts; the password goes into `password_hash` as it was typed. */
  datatype UserInsert = UserInsert(username: string, passwordHash: string, displayName: string, role: Role)

  /**
   * `handleDeleteUser`: after the confirmation, the account named `admin` is
   * refused; any other account is deleted by id.
   */
  function DeleteTarget(u: User, confirmed: bool): (target: Option<string>)
    ensures target.Some? <==> confirmed && u.username != "admin"
    ensures target.Some? ==> target.value == u.id
  {
    if !confirmed then None
    else if u.username == "admin" then None
    else Some(u.id)
  }

  /** The `users` table after a delete by id (or after none). */
  function AfterDelete(store: seq<StoredUser>, target: Option<string>): (r: seq<StoredUser>)
    ensures target.None? ==> r == store
    ensures target.Some? ==> forall s :: s in r <==> s in store && s.id != target.value
    ensures target.Some? ==> forall s :: multiset(r)[s] == if s.id != target.value then multiset(store)[s] else 0
    ensures IsSubsequence(r, store)
  {
    match target
    case None =>
      var all := (s: StoredUser) => true;
      FilterAll(store, all);
      FilterIsSubsequence(store, all);
      store
    case Some(id) =>
      FilterIsSubsequence(store, OtherId(id));
      FilterCount(store, OtherId(id));
      Filter(store, OtherId(id))
  }

  /** The rows a delete by `id` keeps. */
  function OtherId(id: string): StoredUser -> bool {
    (s: StoredUser) => s.id != id
  }

  predicate UniqueIds(store: seq<StoredUser>) {
    forall i, j :: 0 <= i < |store| && 0 <= j < |store| && store[i].id == store[j].id ==> i == j
  }

  /**
   * Deleting any listed account, confirmed or not, never removes the account
   * named `admin`, as long as ids identify the rows.
   */
  lemma AdminSurvivesDelete(store: seq<StoredUser>, k: int, confirmed: bool, a: int)
    requires UniqueIds(store)
    requires 0 <= k < |store| && 0 <= a < |store| && store[a].username == "admin"
    ensures store[a] in AfterDelete(store, DeleteTarget(AsUser(store[k]), confirmed))
  {
    var target := DeleteTarget(AsUser(store[k]), confirmed);
    if target.Some? {
      assert k != a;
      assert store[a].id != target.value;
    }
  }

  /** The rows of `select('*')` on `users`, in the order the query returns them. */
  function Listing(store: seq<StoredUser>): (r: seq<User>)
    ensures |r| == |store|
    ensures forall i :: 0 <= i < |store| ==>
              r[i].id == store[i].id && r[i].username == store[i].username && r[i].role == store[i].role
              && r[i].displayName == store[i].displayName && r[i].avatarUrl == store[i].avatarUrl
  {
    seq(|store|, i requires 0 <= i < |store| => AsUser(store[i]))
  }

  /** The page's state. */
  class UsersPage {
    var currentUser: Option<Session>
    var users: seq<User>
    var newUser: NewUserForm
    var showAddModal: bool

    constructor ()
      ensures currentUser == None && users == [] && newUser == EMPTY_FORM && !showAddModal
    {
      currentUser, users, newUser, showAddModal := None, [], EMPTY_FORM, false;
    }

    /** `loadUsers`: the listing replaces the list; a failed query keeps the old one. */
    method LoadUsers(store: seq<StoredUser>, failed: bool)
      modifies this`users
      ensures users == (if failed then old(users) else Listing(store))
    {
      if !failed {
        users := Listing(store);
      }
    }

    /**
     * The mount effect: with a session, remember the user; only an admin or a
     * manager gets the listing, anyone else is told `denied`.
     */
    method Mount(session: Option<Session>, store: seq<StoredUser>, failed: bool) returns (denied: bool)
      modifies this`currentUser, this`users
      ensures currentUser == (if session.Some? then session else old(currentUser))
      ensures denied <==> session.Some? && !IsPrivileged(session.value.role)
      ensures !(session.Some? && IsPrivileged(session.value.role)) ==> users == old(users)
      ensures session.Some? && IsPrivileged(session.value.role) ==>
                users == (if failed then old(users) else Listing(store))
    {
      denied := false;
      if session.Some? {
        currentUser := session;
        if !IsPrivileged(session.value.role) {
          denied := true;
        } else {
          LoadUsers(store, failed);
        }
      }
    }

    /**
     * `handleCreateUser`. The duplicate check is a `.single()` query on the
     * username whose error is never looked at: only a row it finds stops the
     * insert, so a failed lookup (`lookupFailed`) lets any username through.
     * Otherwise the form's row is inserted; if the store accepts it
     * (`rejected` false) the dialog closes and the form is reset.
     */
    method CreateUser(store: seq<StoredUser>, lookupFailed: bool, rejected: bool) returns (insert: Option<UserInsert>)
      modifies this`newUser, this`showAddModal
      ensures insert.Some? <==> lookupFailed || Single(store, HasUsername(old(newUser.username))).None?
      ensures insert.Some? ==>
                insert.value == UserInsert(old(newUser.username), old(newUser.password), old(newUser.displayName), old(newUser.role))
      ensures insert.Some? && !rejected ==> newUser == EMPTY_FORM && !showAddModal
      ensures insert.None? || rejected ==> newUser == old(newUser) && showAddModal == old(showAddModal)
    {
      var existing := if lookupFailed then None else Single(store, HasUsername(newUser.username));
      if existing.Some? {
        insert := None;
        return;
      }
      insert := Some(UserInsert(newUser.username, newUser.password, newUser.displayName, newUser.role));
      if !rejected {
        showAddModal := false;
        newUser := EMPTY_FORM;
      }
    }
  }

  /** A username held by exactly one account is refused. */
  lemma TakenUsernameRefused(store: seq<StoredUser>, name: string, i: int)
    requires 0 <= i < |store| && store[i].username == name
    requires forall j :: 0 <= j < |store| && j != i ==> store[j].username != name
    ensures Single(store, HasUsername(name)).Some?
  {
    SingleOfUnique(store, HasUsername(name), i);
  }

  /** A username no account holds goes through to the insert. */
  lemma FreeUsernameInserted(store: seq<StoredUser>, name: string)
    requires forall j :: 0 <= j < |store| ==> store[j].username != name
    ensures Single(store, HasUsername(name)).None?
  {
    SingleOfNone(store, HasUsername(name));
  }

  /**
   * `.single()` fails on two matching rows too, so the guard only refuses a
   * username held by exactly one account; the table's own constraints are
   * what keeps usernames unique.
   */
  lemma DuplicatedUsernameNotRefused(store: seq<StoredUser>, name: string, i: int, j: int)
    requires 0 <= i < j < |store| && store[i].username == name && store[j].username == name
    ensures Single(store, HasUsername(name)).None?
  {
    SingleOfSeveral(store, HasUsername(name), i, j);
  }
}
