/**
 * The profile page (src/app/dashboard/profile/page.tsx): the form with the
 * display name and avatar, and the save that rewrites the user's row, the
 * `sale` name on the user's own transactions and the stored session.
 */
module Profile {

  import opened Wrappers
  import opened Types
  import opened Seqs
  import opened SessionSlot
  import opened Login

  /** `formData`; a missing avatar is the empty text. */
  datatype ProfileForm = ProfileForm(displayName: string, avatarUrl: string)

  /** `update({ display_name, avatar_url }).eq('username', username)` on `users`. */
  datatype ProfileUpdate = ProfileUpdate(username: string, displayName: string, avatarUrl: string)

  /** `update({ sale: displayName }).eq('created_by', username)` on `transactions`. */
  datatype SaleRename = SaleRename(createdBy: string, sale: string)

  function CreatedBy(username: string): Transaction -> bool {
    (t: Transaction) => t.createdBy == username
  }

  function WithSale(name: string): Transaction -> Transaction {
    (t: Transaction) => t.(sale := name)
  }

  function WithProfile(u: ProfileUpdate): StoredUser -> StoredUser {
    (s: StoredUser) => s.(displayName := u.displayName, avatarUrl := Some(u.avatarUrl))
  }

  /**
   * The `users` table after the profile update: the rows with the username
   * take the new display name and avatar; everything else stays.
   */
  function UpdateUserRow(store: seq<StoredUser>, u: ProfileUpdate): (r: seq<StoredUser>)
    ensures |r| == |store|
    ensures forall i :: 0 <= i < |r| && store[i].username == u.username ==>
              r[i] == store[i].(displayName := u.displayName, avatarUrl := Some(u.avatarUrl))
    ensures forall i :: 0 <= i < |r| && store[i].username != u.username ==> r[i] == store[i]
  {
    MapWhere(store, HasUsername(u.username), WithProfile(u))
  }

  /**
   * The `transactions` table after the rename: every transaction the user
   * created names the new display name as its sale; no other field and no
   * other transaction changes.
   */
  function RenameSales(txs: seq<Transaction>, rn: SaleRename): (r: seq<Transaction>)
    ensures |r| == |txs|
    ensures forall i :: 0 <= i < |r| ==> r[i] == txs[i].(sale := r[i].sale)
    ensures forall i :: 0 <= i < |r| ==> r[i].sale == (if txs[i].createdBy == rn.createdBy then rn.sale else txs[i].sale)
  {
    MapWhere(txs, CreatedBy(rn.createdBy), WithSale(rn.sale))
  }

  /** Renaming twice to the same name is renaming once. */
  lemma RenameSalesIdempotent(txs: seq<Transaction>, rn: SaleRename)
    ensures RenameSales(RenameSales(txs, rn), rn) == RenameSales(txs, rn)
  {
  }

  /** The rename keeps `created_by`, so it keeps which transactions any user may see. */
  lemma RenameKeepsOwner(txs: seq<Transaction>, rn: SaleRename, username: string)
    ensures forall i :: 0 <= i < |txs| ==> (RenameSales(txs, rn)[i].createdBy == username <==> txs[i].createdBy == username)
  {
  }

  /** `{ ...user, ...formData }`: the stored session with the form's two fields laid over it. */
  function MergeSession(s: Session, f: ProfileForm): (m: Session)
    ensures m.id == s.id && m.username == s.username && m.role == s.role
    ensures m.displayName == f.displayName && m.avatarUrl == Some(f.avatarUrl)
  {
    s.(displayName := f.displayName, avatarUrl := Some(f.avatarUrl))
  }

  /**
   * The session the profile save writes is the one the next sign-in would
   * build from the updated row: the page and the table do not drift apart.
   */
  lemma MergedSessionMatchesNextLogin(store: seq<StoredUser>, i: int, f: ProfileForm)
    requires 0 <= i < |store|
    requires forall j :: 0 <= j < |store| && j != i ==> store[j].username != store[i].username
    ensures var updated := UpdateUserRow(store, ProfileUpdate(store[i].username, f.displayName, f.avatarUrl));
            Authenticate(updated, false, store[i].username, store[i].passwordHash)
            == Ok(MergeSession(SessionOf(store[i]), f))
  {
    var updated := UpdateUserRow(store, ProfileUpdate(store[i].username, f.displayName, f.avatarUrl));
    assert updated[i].username == store[i].username && updated[i].passwordHash == store[i].passwordHash;
    RightPasswordAccepted(updated, store[i].username, i);
  }

  /** `data.avatar_url || ''`. */
  function AvatarText(a: Option<string>): (t: string)
    ensures a.Some? ==> t == a.value
    ensures a.None? ==> t == ""
  {
    if a.Some? then a.value else ""
  }

  /** The page's state. */
  class ProfilePage {
    var user: Option<Session>
    var form: ProfileForm

    constructor ()
      ensures user == None && form == ProfileForm("", "")
    {
      user, form := None, ProfileForm("", "");
    }

    /**
     * `loadProfile`: the user's row (found by `.single()` on the username)
     * fills the form and refreshes the display name and avatar of the
     * stored session. A failed or empty lookup changes nothing.
     */
    method LoadProfile(username: string, store: seq<StoredUser>, failed: bool, slot: SessionStore)
      modifies this`form, slot
      ensures var row := Single(store, HasUsername(username));
              && (failed || row.None? ==> form == old(form) && slot.stored == old(slot.stored))
              && (!failed && row.Some? ==>
                    form == ProfileForm(row.value.displayName, AvatarText(row.value.avatarUrl))
                    && slot.stored == (if old(slot.stored).None? then None
                                       else Some(old(slot.stored).value.(displayName := row.value.displayName,
                                                                         avatarUrl := row.value.avatarUrl))))
    {
      var row := if failed then None else Single(store, HasUsername(username));
      if row.Some? {
        form := ProfileForm(row.value.displayName, AvatarText(row.value.avatarUrl));
        if slot.stored.Some? {
          slot.Put(slot.stored.value.(displayName := row.value.displayName, avatarUrl := row.value.avatarUrl));
        }
      }
    }

    /** The mount effect: with a stored session, show it and load the profile of its username. */
    method Mount(store: seq<StoredUser>, failed: bool, slot: SessionStore)
      modifies this, slot
      ensures user == (if old(slot.stored).Some? then old(slot.stored) else old(user))
      ensures old(slot.stored).None? ==> form == old(form) && slot.stored == None
      ensures old(slot.stored).Some? ==>
                var me, row := old(slot.stored).value, Single(store, HasUsername(old(slot.stored).value.username));
                && (failed || row.None? ==> form == old(form) && slot.stored == old(slot.stored))
                && (!failed && row.Some? ==>
                      form == ProfileForm(row.value.displayName, AvatarText(row.value.avatarUrl))
                      && slot.stored == Some(me.(displayName := row.value.displayName, avatarUrl := row.value.avatarUrl)))
    {
      if slot.stored.Some? {
        user := slot.stored;
        LoadProfile(slot.stored.value.username, store, failed, slot);
      }
    }

    /** `handleAvatarUpload`: a successful upload sets the avatar field, and only it. */
    method AvatarUploaded(url: Option<string>)
      modifies this`form
      ensures form == (if url.Some? then old(form).(avatarUrl := url.value) else old(form))
    {
      if url.Some? {
        form := form.(avatarUrl := url.value);
      }
    }

    /**
     * `handleSubmit`. Without a user nothing happens. The row update goes
     * first; a refused one (`userRejected`) ends the save. Otherwise the
     * rename of the user's transactions is sent, and whether the store
     * accepts it or not (`txRejected`, only logged) the merged session
     * replaces the stored one and the shown one.
     */
    method Submit(userRejected: bool, txRejected: bool, slot: SessionStore)
      returns (userUpdate: Option<ProfileUpdate>, rename: Option<SaleRename>)
      modifies this`user, slot
      ensures old(user).None? ==>
                userUpdate == None && rename == None && user == old(user) && slot.stored == old(slot.stored)
      ensures old(user).Some? ==> userUpdate == Some(ProfileUpdate(old(user).value.username, form.displayName, form.avatarUrl))
      ensures old(user).Some? && userRejected ==> rename == None && user == old(user) && slot.stored == old(slot.stored)
      ensures old(user).Some? && !userRejected ==>
                rename == Some(SaleRename(old(user).value.username, form.displayName))
                && user == Some(MergeSession(old(user).value, form)) && slot.stored == user
    {
      userUpdate, rename := None, None;
      if user.None? {
        return;
      }
      var current := user.value;
      userUpdate := Some(ProfileUpdate(current.username, form.displayName, form.avatarUrl));
      if userRejected {
        return;
      }
      rename := Some(SaleRename(current.username, form.displayName));
      var merged := MergeSession(current, form);
      slot.Put(merged);
      user := Some(merged);
    }
  }
}
