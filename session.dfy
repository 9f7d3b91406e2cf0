/**
 * The browser storage slot `ozifin_user` that holds the signed-in user
 * between page loads. The login page fills it, the dashboard shell reads and
 * clears it, the profile page rewrites it.
 */
module SessionSlot {

  import opened Wrappers
  import opened Types

  class SessionStore {
    var stored: Option<Session>

    /** A browser that has never signed in. */
    constructor ()
      ensures stored == None
    {
      stored := None;
    }

    /** `localStorage.setItem('ozifin_user', JSON.stringify(s))`. */
    method Put(s: Session)
      modifies this
      ensures stored == Some(s)
    {
      stored := Some(s);
    }

    /** `localStorage.removeItem('ozifin_user')`. */
    method Remove()
      modifies this
      ensures stored == None
    {
      stored := None;
    }
  }
}
