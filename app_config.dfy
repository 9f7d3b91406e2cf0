/**
 * The `app_config` table and the override fold that both the dashboard
 * shell (src/app/dashboard/layout.tsx) and the login page
 * (src/app/login/page.tsx) run over it: start from built-in texts, then let
 * every row of the two keys the view asks for replace its text, in order.
 */
module AppConfig {

  import opened Seqs

  /** An `app_config` row; the settings page edits `value`. */
  datatype ConfigItem = ConfigItem(key: string, value: string, description: string)

  /** A title and a slogan, the two texts each view brands itself with. */
  datatype Banner = Banner(title: string, slogan: string)

  /**
   * The value `key` ends up with when every row carrying it overrides the
   * current one: the last such row's value, or `current` when there is none.
   */
  function LastValue(rows: seq<ConfigItem>, key: string, current: string): (v: string)
    ensures (forall i :: 0 <= i < |rows| ==> rows[i].key != key) ==> v == current
    ensures forall i :: 0 <= i < |rows| && rows[i].key == key && (forall j :: i < j < |rows| ==> rows[j].key != key)
              ==> v == rows[i].value
    decreases |rows|
  {
    if rows == [] then current
    else
      var next := if rows[0].key == key then rows[0].value else current;
      assert forall i :: 1 <= i < |rows| ==> rows[i] == rows[1..][i - 1];
      LastValue(rows[1..], key, next)
  }

  /** The banner the fold produces from `defaults`. */
  function Overridden(rows: seq<ConfigItem>, defaults: Banner, titleKey: string, sloganKey: string): Banner {
    Banner(LastValue(rows, titleKey, defaults.title), LastValue(rows, sloganKey, defaults.slogan))
  }

  /** `.in('key', keys)`. */
  function KeyIn(keys: seq<string>): ConfigItem -> bool {
    (c: ConfigItem) => c.key in keys
  }

  /**
   * `data.forEach(item => { if (item.key === titleKey) newConfig.title = item.value;
   * if (item.key === sloganKey) newConfig.slogan = item.value; })` on a copy of
   * `defaults`.
   */
  method ApplyOverrides(rows: seq<ConfigItem>, defaults: Banner, titleKey: string, sloganKey: string)
    returns (b: Banner)
    ensures b == Overridden(rows, defaults, titleKey, sloganKey)
  {
    b := defaults;
    var i := 0;
    while i < |rows|
      invariant 0 <= i <= |rows|
      invariant Overridden(rows[i..], b, titleKey, sloganKey) == Overridden(rows, defaults, titleKey, sloganKey)
    {
      assert rows[i..][1..] == rows[i + 1..];
      if rows[i].key == titleKey {
        b := b.(title := rows[i].value);
      }
      if rows[i].key == sloganKey {
        b := b.(slogan := rows[i].value);
      }
      i := i + 1;
    }
    assert rows[i..] == [];
  }

  /**
   * Rows of keys other than `key` do not matter: asking the store only for
   * some keys, as long as `key` is among them, leaves its value unchanged.
   */
  lemma {:induction false} LastValueOfQuery(rows: seq<ConfigItem>, p: ConfigItem -> bool, key: string, current: string)
    requires forall i :: 0 <= i < |rows| && rows[i].key == key ==> p(rows[i])
    ensures LastValue(Filter(rows, p), key, current) == LastValue(rows, key, current)
    decreases |rows|
  {
    if rows != [] {
      var next := if rows[0].key == key then rows[0].value else current;
      assert forall i :: 1 <= i < |rows| ==> rows[i] == rows[1..][i - 1];
      LastValueOfQuery(rows[1..], p, key, next);
      if p(rows[0]) {
        assert Filter(rows, p) == [rows[0]] + Filter(rows[1..], p);
        assert ([rows[0]] + Filter(rows[1..], p))[1..] == Filter(rows[1..], p);
      }
    }
  }

  /** The banner computed from the two-key query is the banner of the whole table. */
  lemma QueryBannerIsTableBanner(store: seq<ConfigItem>, defaults: Banner, titleKey: string, sloganKey: string)
    ensures Overridden(Filter(store, KeyIn([titleKey, sloganKey])), defaults, titleKey, sloganKey)
            == Overridden(store, defaults, titleKey, sloganKey)
  {
    LastValueOfQuery(store, KeyIn([titleKey, sloganKey]), titleKey, defaults.title);
    LastValueOfQuery(store, KeyIn([titleKey, sloganKey]), sloganKey, defaults.slogan);
  }
}
