/**
 * The system settings page (src/app/dashboard/settings/page.tsx): the
 * `app_config` rows as an editable list, the lookup its inputs show, the
 * save loop that stops at the first failed update, and the admin gate.
 */
module Settings {

  import opened Wrappers
  import opened Types
  import opened Seqs
  import opened AppConfig

  function HasKey(key: string): ConfigItem -> bool {
    (c: ConfigItem) => c.key == key
  }

  function WithValue(value: string): ConfigItem -> ConfigItem {
    (c: ConfigItem) => c.(value := value)
  }

  /**
   * `handleUpdate`: the rows with the edited key take the new value; every
   * other row, every key and description, the length and the order stay.
   */
  function UpdateByKey(configs: seq<ConfigItem>, key: string, value: string): (r: seq<ConfigItem>)
    ensures |r| == |configs|
    ensures forall i :: 0 <= i < |r| ==> r[i].key == configs[i].key && r[i].description == configs[i].description
    ensures forall i :: 0 <= i < |r| ==> r[i].value == (if configs[i].key == key then value else configs[i].value)
  {
    MapWhere(configs, HasKey(key), WithValue(value))
  }

  /** `configs.find(c => c.key === key)?.value || ''`: the first row's value, '' without a row. */
  function Lookup(configs: seq<ConfigItem>, key: string): (v: string)
    ensures (forall i :: 0 <= i < |configs| ==> configs[i].key != key) ==> v == ""
    ensures forall i :: 0 <= i < |configs| && configs[i].key == key && (forall j :: 0 <= j < i ==> configs[j].key != key)
              ==> v == configs[i].value
    decreases |configs|
  {
    if configs == [] then ""
    else if configs[0].key == key then configs[0].value
    else
      assert forall i :: 1 <= i < |configs| ==> configs[i] == configs[1..][i - 1];
      Lookup(configs[1..], key)
  }

  /** What was typed for a key present in the list is what its input shows next. */
  lemma LookupAfterUpdate(configs: seq<ConfigItem>, key: string, value: string, i: int)
    requires 0 <= i < |configs| && configs[i].key == key
    ensures Lookup(UpdateByKey(configs, key, value), key) == value
  {
    var r := UpdateByKey(configs, key, value);
    var k := FirstWithKey(configs, key, i);
    assert r[k].key == key && r[k].value == value;
    assert forall j :: 0 <= j < k ==> r[j].key != key by {
      forall j | 0 <= j < k ensures r[j].key != key {
        assert r[j].key == configs[j].key;
      }
    }
  }

  /** The first row holding `key`, at or before row `i`. */
  lemma {:induction false} FirstWithKey(configs: seq<ConfigItem>, key: string, i: int) returns (k: int)
    requires 0 <= i < |configs| && configs[i].key == key
    ensures 0 <= k <= i && configs[k].key == key && forall j :: 0 <= j < k ==> configs[j].key != key
    decreases i
  {
    if exists j :: 0 <= j < i && configs[j].key == key {
      var j :| 0 <= j < i && configs[j].key == key;
      k := FirstWithKey(configs, key, j);
    } else {
      k := i;
    }
  }

  /** Editing one key leaves what every other input shows. */
  lemma {:induction false} LookupOtherAfterUpdate(configs: seq<ConfigItem>, key: string, value: string, other: string)
    requires other != key
    ensures Lookup(UpdateByKey(configs, key, value), other) == Lookup(configs, other)
    decreases |configs|
  {
    if configs != [] {
      var r := UpdateByKey(configs, key, value);
      LookupOtherAfterUpdate(configs[1..], key, value, other);
      assert r[1..] == UpdateByKey(configs[1..], key, value);
    }
  }

  /** Typing into the input of a key the table lacks changes nothing: the input keeps showing ''. */
  lemma UpdateAbsentKey(configs: seq<ConfigItem>, key: string, value: string)
    requires forall i :: 0 <= i < |configs| ==> configs[i].key != key
    ensures UpdateByKey(configs, key, value) == configs
    ensures Lookup(UpdateByKey(configs, key, value), key) == ""
  {
  }

  /** One `update({ value, updated_at }).eq('key', key)` the save loop sends. */
  datatype ConfigWrite = ConfigWrite(key: string, value: string, updatedAt: int)

  /**
   * The position of the first row whose update the store refuses, or the
   * length when it refuses none. A refusal is modelled by the set of keys
   * whose update fails.
   */
  function FirstRejected(configs: seq<ConfigItem>, rejected: set<string>): (k: nat)
    ensures k <= |configs|
    ensures forall j :: 0 <= j < k ==> configs[j].key !in rejected
    ensures k < |configs| ==> configs[k].key in rejected
    decreases |configs|
  {
    if configs == [] then 0
    else if configs[0].key in rejected then 0
    else
      assert forall j :: 1 <= j < |configs| ==> configs[j] == configs[1..][j - 1];
      1 + FirstRejected(configs[1..], rejected)
  }

  /** The content renders once loading is over, and only for the role `admin`. */
  predicate ShowsSettings(loading: bool, userRole: string) {
    !loading && userRole == "admin"
  }

  /** The page's state. `userRole` is the session's role as stored, '' without a session. */
  class SettingsPage {
    var configs: seq<ConfigItem>
    var loading: bool
    var userRole: string

    constructor ()
      ensures configs == [] && loading && userRole == ""
    {
      configs, loading, userRole := [], true, "";
    }

    /** `loadConfig`: the table replaces the list unless the query fails; loading ends either way. */
    method LoadConfig(store: seq<ConfigItem>, failed: bool)
      modifies this`configs, this`loading
      ensures configs == (if failed then old(configs) else store) && !loading
    {
      if !failed {
        configs := store;
      }
      loading := false;
    }

    /** The mount effect: remember the session's role, then load the table, whoever it is. */
    method Mount(session: Option<Session>, store: seq<ConfigItem>, failed: bool)
      modifies this
      ensures userRole == (if session.Some? then RoleName(session.value.role) else old(userRole))
      ensures configs == (if failed then old(configs) else store) && !loading
    {
      if session.Some? {
        userRole := RoleName(session.value.role);
      }
      LoadConfig(store, failed);
    }

    method Update(key: string, value: string)
      modifies this`configs
      ensures configs == UpdateByKey(old(configs), key, value)
    {
      configs := UpdateByKey(configs, key, value);
    }

    /**
     * `handleSave`: one update per row, in order, stamped `now`; the first
     * refused update ends the loop, so no later row is written. Only a
     * complete save dispatches `config-updated` (`ok`).
     */
    method Save(rejected: set<string>, now: int) returns (writes: seq<ConfigWrite>, ok: bool)
      ensures ok <==> FirstRejected(configs, rejected) == |configs|
      ensures |writes| == if ok then |configs| else FirstRejected(configs, rejected) + 1
      ensures forall j :: 0 <= j < |writes| ==> writes[j] == ConfigWrite(configs[j].key, configs[j].value, now)
    {
      writes, ok := [], true;
      var i := 0;
      while i < |configs| && ok
        invariant 0 <= i <= |configs|
        invariant |writes| == i
        invariant forall j :: 0 <= j < i ==> writes[j] == ConfigWrite(configs[j].key, configs[j].value, now)
        invariant ok ==> forall j :: 0 <= j < i ==> configs[j].key !in rejected
        invariant !ok ==> 1 <= i && configs[i - 1].key in rejected && forall j :: 0 <= j < i - 1 ==> configs[j].key !in rejected
      {
        writes := writes + [ConfigWrite(configs[i].key, configs[i].value, now)];
        if configs[i].key in rejected {
          ok := false;
        }
        i := i + 1;
      }
    }
  }

  /** Only an admin sees the settings content, the same role that gets the settings link. */
  lemma SettingsGateIsAdmin(role: Role)
    ensures ShowsSettings(false, RoleName(role)) <==> role == Admin
  {
  }
}
