/**
 * The login page (src/app/login/page.tsx): the banner texts loaded from
 * `app_config`, and the sign-in decision that either stores a session or
 * reports one message for every kind of failure.
 */
module Login {

  import opened Wrappers
  import opened Types
  import opened Seqs
  import opened AppConfig
  import opened SessionSlot

  const LOGIN_DEFAULTS: Banner := Banner("OZIFIN", "Hệ thống quản lý dòng tiền chuyên nghiệp")
  const LOGIN_TITLE_KEY: string := "login_title"
  const LOGIN_SLOGAN_KEY: string := "login_slogan"

  /** The one message shown for an unknown user, a failed query and a wrong password. */
  const BAD_CREDENTIALS: string := "Sai tên đăng nhập hoặc mật khẩu"
  const DASHBOARD_PATH: string := "/dashboard"

  function LoginRows(store: seq<ConfigItem>): seq<ConfigItem> {
    Filter(store, KeyIn([LOGIN_TITLE_KEY, LOGIN_SLOGAN_KEY]))
  }

  /** The record written to browser storage: five fields of the row, never its password. */
  function SessionOf(u: StoredUser): (s: Session)
    ensures s.id == u.id && s.username == u.username && s.role == u.role
    ensures s.displayName == u.displayName && s.avatarUrl == u.avatarUrl
  {
    Session(u.id, u.username, u.role, u.displayName, u.avatarUrl)
  }

  /** The session does not depend on the password: changing it changes nothing stored. */
  lemma SessionIgnoresPassword(u: StoredUser, password: string)
    ensures SessionOf(u.(passwordHash := password)) == SessionOf(u)
  {
  }

  /**
   * `handleLogin`'s decision. The `.single()` lookup finds the row only when
   * exactly one row has the username and the query does not fail; the typed
   * password must equal the stored `password_hash`.
   */
  function Authenticate(store: seq<StoredUser>, failed: bool, username: string, password: string)
    : (r: Result<Session, string>)
    ensures r.Err? ==> r.error == BAD_CREDENTIALS
    ensures r.Ok? <==> !failed && Single(store, HasUsername(username)).Some?
                       && Single(store, HasUsername(username)).value.passwordHash == password
    ensures r.Ok? ==> r.value == SessionOf(Single(store, HasUsername(username)).value)
                      && r.value.username == username
  {
    var found := if failed then None else Single(store, HasUsername(username));
    if found.None? then Err(BAD_CREDENTIALS)
    else if found.value.passwordHash != password then Err(BAD_CREDENTIALS)
    else Ok(SessionOf(found.value))
  }

  /** A username no row holds is refused. */
  lemma UnknownUserRefused(store: seq<StoredUser>, failed: bool, username: string, password: string)
    requires forall i :: 0 <= i < |store| ==> store[i].username != username
    ensures Authenticate(store, failed, username, password) == Err(BAD_CREDENTIALS)
  {
    SingleOfNone(store, HasUsername(username));
  }

  /** The account's row with another password is refused, with the same message. */
  lemma WrongPasswordRefused(store: seq<StoredUser>, username: string, password: string, i: int)
    requires 0 <= i < |store| && store[i].username == username && store[i].passwordHash != password
    requires forall j :: 0 <= j < |store| && j != i ==> store[j].username != username
    ensures Authenticate(store, false, username, password) == Err(BAD_CREDENTIALS)
  {
    SingleOfUnique(store, HasUsername(username), i);
  }

  /** The account's row with its password signs in as that account. */
  lemma RightPasswordAccepted(store: seq<StoredUser>, username: string, i: int)
    requires 0 <= i < |store| && store[i].username == username
    requires forall j :: 0 <= j < |store| && j != i ==> store[j].username != username
    ensures Authenticate(store, false, username, store[i].passwordHash) == Ok(SessionOf(store[i]))
  {
    SingleOfUnique(store, HasUsername(username), i);
  }

  /** The page's state. */
  class LoginPage {
    var username: string
    var password: string
    var loading: bool
    var config: Banner

    constructor ()
      ensures username == "" && password == "" && !loading && config == LOGIN_DEFAULTS
    {
      username, password, loading, config := "", "", false, LOGIN_DEFAULTS;
    }

    /** `loadConfig`: the two login keys override the built-in texts; no rows keep what is shown. */
    method LoadConfig(store: seq<ConfigItem>, failed: bool)
      modifies this`config
      ensures failed || |LoginRows(store)| == 0 ==> config == old(config)
      ensures !failed && |LoginRows(store)| > 0 ==>
                config == Overridden(store, LOGIN_DEFAULTS, LOGIN_TITLE_KEY, LOGIN_SLOGAN_KEY)
    {
      var rows := LoginRows(store);
      if !failed && |rows| > 0 {
        config := ApplyOverrides(rows, LOGIN_DEFAULTS, LOGIN_TITLE_KEY, LOGIN_SLOGAN_KEY);
        QueryBannerIsTableBanner(store, LOGIN_DEFAULTS, LOGIN_TITLE_KEY, LOGIN_SLOGAN_KEY);
      }
    }

    /**
     * `handleLogin`: on success the session goes to storage, a welcome
     * message names the user and the browser goes to the dashboard; on
     * failure storage is left alone and the shared message is shown.
     */
    method HandleLogin(store: seq<StoredUser>, failed: bool, slot: SessionStore)
      returns (message: string, redirect: Option<string>)
      modifies slot, this`loading
      ensures !loading
      ensures var r := Authenticate(store, failed, username, password);
              && (r.Ok? ==> slot.stored == Some(r.value) && redirect == Some(DASHBOARD_PATH)
                            && message == "Chào mừng, " + r.value.displayName + "!")
              && (r.Err? ==> slot.stored == old(slot.stored) && redirect == None && message == BAD_CREDENTIALS)
    {
      loading := true;
      var r := Authenticate(store, failed, username, password);
      if r.Err? {
        message, redirect := r.error, None;
      } else {
        slot.Put(r.value);
        message, redirect := "Chào mừng, " + r.value.displayName + "!", Some(DASHBOARD_PATH);
      }
      loading := false;
    }
  }
}
