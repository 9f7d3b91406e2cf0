/**
 * The dashboard shell (src/app/dashboard/layout.tsx): the sidebar texts
 * loaded from `app_config`, the session gate in front of every dashboard
 * page, logging out, and which navigation links a role gets.
 */
module Shell {

  import opened Wrappers
  import opened Types
  import opened Seqs
  import opened AppConfig
  import opened SessionSlot
  import Settings

  const SIDEBAR_DEFAULTS: Banner := Banner("OZIFIN", "Transaction System")
  const SIDEBAR_TITLE_KEY: string := "sidebar_title"
  const SIDEBAR_SLOGAN_KEY: string := "sidebar_slogan"

  const LOGIN_PATH: string := "/login"
  const USERS_PATH: string := "/dashboard/users"
  const SETTINGS_PATH: string := "/dashboard/settings"

  /** The rows the sidebar query returns. */
  function SidebarRows(store: seq<ConfigItem>): seq<ConfigItem> {
    Filter(store, KeyIn([SIDEBAR_TITLE_KEY, SIDEBAR_SLOGAN_KEY]))
  }

  /**
   * The navigation links, in order: overview and transactions for everyone,
   * users for an admin or a manager, settings for an admin, the profile for
   * everyone.
   */
  function NavLinks(role: Role): (links: seq<string>)
    ensures "/dashboard" in links && "/dashboard/transactions" in links && "/dashboard/profile" in links
    ensures USERS_PATH in links <==> IsPrivileged(role)
    ensures SETTINGS_PATH in links <==> role == Admin
    ensures links[0] == "/dashboard" && links[|links| - 1] == "/dashboard/profile"
    ensures |links| == 3 + (if IsPrivileged(role) then 1 else 0) + (if role == Admin then 1 else 0)
  {
    ["/dashboard", "/dashboard/transactions"]
    + (if role == Admin || role == Manager then [USERS_PATH] else [])
    + (if role == Admin then [SETTINGS_PATH] else [])
    + ["/dashboard/profile"]
  }

  /** The links a role gets are the pages that let that role in. */
  lemma NavLinksMatchPageGates(role: Role)
    ensures SETTINGS_PATH in NavLinks(role) <==> Settings.ShowsSettings(false, RoleName(role))
  {
    Settings.SettingsGateIsAdmin(role);
  }

  /** The shell's state. */
  class DashboardShell {
    var user: Option<Session>
    var mounted: bool
    var config: Banner

    constructor ()
      ensures user == None && !mounted && config == SIDEBAR_DEFAULTS
    {
      user, mounted, config := None, false, SIDEBAR_DEFAULTS;
    }

    /** Pages render only once mounted and signed in; until then a spinner shows. */
    predicate ShowsContent()
      reads this
    {
      mounted && user.Some?
    }

    /**
     * `loadConfig`, on mount and on every `config-updated` event. The handler
     * was created on the first render, so its copy of the config is always
     * the built-in one: each load starts again from the defaults. An empty
     * or failed query keeps what is shown.
     */
    method LoadConfig(store: seq<ConfigItem>, failed: bool)
      modifies this`config
      ensures failed || |SidebarRows(store)| == 0 ==> config == old(config)
      ensures !failed && |SidebarRows(store)| > 0 ==>
                config == Overridden(store, SIDEBAR_DEFAULTS, SIDEBAR_TITLE_KEY, SIDEBAR_SLOGAN_KEY)
    {
      var rows := SidebarRows(store);
      if !failed && |rows| > 0 {
        config := ApplyOverrides(rows, SIDEBAR_DEFAULTS, SIDEBAR_TITLE_KEY, SIDEBAR_SLOGAN_KEY);
        QueryBannerIsTableBanner(store, SIDEBAR_DEFAULTS, SIDEBAR_TITLE_KEY, SIDEBAR_SLOGAN_KEY);
      }
    }

    /** The mount effect: mark mounted and load the sidebar texts. */
    method Mount(store: seq<ConfigItem>, failed: bool)
      modifies this`mounted, this`config
      ensures mounted
      ensures failed || |SidebarRows(store)| == 0 ==> config == old(config)
      ensures !failed && |SidebarRows(store)| > 0 ==>
                config == Overridden(store, SIDEBAR_DEFAULTS, SIDEBAR_TITLE_KEY, SIDEBAR_SLOGAN_KEY)
    {
      mounted := true;
      LoadConfig(store, failed);
    }

    /**
     * The session effect: once mounted, no stored session sends the browser
     * to the login page; a stored one becomes the shown user.
     */
    method CheckSession(slot: SessionStore) returns (redirect: Option<string>)
      modifies this`user
      ensures !mounted ==> redirect == None && user == old(user)
      ensures mounted && slot.stored.None? ==> redirect == Some(LOGIN_PATH) && user == old(user)
      ensures mounted && slot.stored.Some? ==> redirect == None && user == slot.stored && ShowsContent()
    {
      redirect := None;
      if mounted {
        if slot.stored.None? {
          redirect := Some(LOGIN_PATH);
        } else {
          user := slot.stored;
        }
      }
    }

    /** `handleLogout`: forget the session and go to the login page. */
    method Logout(slot: SessionStore) returns (redirect: string)
      modifies slot
      ensures slot.stored == None && redirect == LOGIN_PATH
    {
      slot.Remove();
      redirect := LOGIN_PATH;
    }
  }

  /** After logging out, the next session check sends the browser back to the login page. */
  method LogoutThenCheck(shell: DashboardShell, slot: SessionStore) returns (redirect: Option<string>)
    requires shell.mounted
    modifies slot, shell`user
    ensures redirect == Some(LOGIN_PATH) && slot.stored == None
  {
    var _ := shell.Logout(slot);
    redirect := shell.CheckSession(slot);
  }
}
