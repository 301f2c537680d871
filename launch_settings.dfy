/**
 * The launch settings editor: a list of key/value settings loaded from the
 * `launch_settings` table, edited locally, and written back one row at a time.
 *
 * The table is an object holding the value column keyed by row id; whether a
 * write is accepted is a parameter, one per write.
 */
module LaunchSettings {
  import opened Optional

  datatype LaunchSetting = LaunchSetting(
    id: int,
    settingKey: string,
    settingValue: Option<string>,
    description: string,
    isEditable: bool)

  // ---------------------------------------------------------------------------
  // Local edits (updateSetting)

  /** The list with `settingValue` replaced by `value` on every entry whose id
      is `id`. */
  function UpdateSetting(settings: seq<LaunchSetting>, id: int, value: string): (r: seq<LaunchSetting>)
    ensures |r| == |settings|
    ensures forall i :: 0 <= i < |r| && settings[i].id == id ==>
      r[i] == settings[i].(settingValue := Some(value))
    ensures forall i :: 0 <= i < |r| && settings[i].id != id ==> r[i] == settings[i]
  {
    if settings == [] then []
    else
      var head := if settings[0].id == id then settings[0].(settingValue := Some(value)) else settings[0];
      [head] + UpdateSetting(settings[1..], id, value)
  }

  /** Editing the same setting to the same value twice is editing it once. */
  lemma UpdateSettingIdempotent(settings: seq<LaunchSetting>, id: int, value: string)
    ensures UpdateSetting(UpdateSetting(settings, id, value), id, value) == UpdateSetting(settings, id, value)
  {
  }

  /** Edits of two different settings do not interfere: their order is irrelevant. */
  lemma UpdateSettingCommutes(settings: seq<LaunchSetting>, a: int, v: string, b: int, w: string)
    requires a != b
    ensures UpdateSetting(UpdateSetting(settings, a, v), b, w) == UpdateSetting(UpdateSetting(settings, b, w), a, v)
  {
  }

  // ---------------------------------------------------------------------------
  // Rendering an input (renderInput)

  /** `setting_value || ''`: a missing value is shown as the empty string. */
  function ShownValue(value: Option<string>): (s: string)
    ensures value.None? ==> s == ""
    ensures value.Some? ==> s == value.value
  {
    match value
    case None => ""
    case Some(v) => v
  }

  predicate StartsWith(s: string, prefix: string) {
    |prefix| <= |s| && s[..|prefix|] == prefix
  }

  /** `String.prototype.includes`, by scanning the start positions in order. */
  predicate Includes(s: string, sub: string): (b: bool)
    ensures StartsWith(s, sub) ==> b
    ensures b ==> |sub| <= |s|
    decreases |s|
  {
    StartsWith(s, sub) || (|s| > 0 && Includes(s[1..], sub))
  }

  /** `sub` occurs in `s` starting at position `i`. */
  predicate OccursAt(s: string, sub: string, i: int) {
    0 <= i && i + |sub| <= |s| && s[i..i + |sub|] == sub
  }

  /** The scan agrees with the definition of a substring: `sub` occurs at some
      position of `s`. */
  lemma {:induction false} IncludesIffOccurs(s: string, sub: string)
    ensures Includes(s, sub) <==> exists i :: OccursAt(s, sub, i)
    decreases |s|
  {
    if StartsWith(s, sub) {
      assert OccursAt(s, sub, 0);
    } else if |s| == 0 {
      assert |sub| > 0;
    } else {
      IncludesIffOccurs(s[1..], sub);
      if Includes(s[1..], sub) {
        var i :| OccursAt(s[1..], sub, i);
        assert s[1..][i..i + |sub|] == s[i + 1..i + 1 + |sub|];
        assert OccursAt(s, sub, i + 1);
      } else {
        forall i | 0 <= i && i + |sub| <= |s|
          ensures !OccursAt(s, sub, i)
        {
          if i == 0 {
            assert s[i..i + |sub|] == s[..|sub|];
          } else {
            assert !OccursAt(s[1..], sub, i - 1);
            assert s[i..i + |sub|] == s[1..][i - 1..i - 1 + |sub|];
          }
        }
      }
    }
  }

  datatype InputKind = SwitchInput | DateInput | TimeInput | TextInput

  /** The input chosen for a setting key: exact match first, then the two
      substring tests in order, then plain text. */
  function InputKindOf(key: string): (k: InputKind)
    ensures k == SwitchInput <==> key == "is_active"
    ensures k == DateInput <==> key != "is_active" && Includes(key, "_date")
    ensures k == TimeInput <==>
      key != "is_active" && !Includes(key, "_date") && Includes(key, "_time")
    ensures k == TextInput <==>
      key != "is_active" && !Includes(key, "_date") && !Includes(key, "_time")
  {
    if key == "is_active" then SwitchInput
    else if Includes(key, "_date") then DateInput
    else if Includes(key, "_time") then TimeInput
    else TextInput
  }

  /** A key holding both markers gets a date input: "_date" is tested first. */
  lemma DateWinsOverTime(key: string, i: nat, j: nat)
    requires key != "is_active"
    requires OccursAt(key, "_date", i)
    requires OccursAt(key, "_time", j)
    ensures InputKindOf(key) == DateInput
  {
    IncludesIffOccurs(key, "_date");
  }

  /** The switch is on exactly when the shown value is "true". */
  predicate SwitchChecked(setting: LaunchSetting): (c: bool)
    ensures c <==> setting.settingValue == Some("true")
  {
    ShownValue(setting.settingValue) == "true"
  }

  /** The value the switch writes back when toggled. */
  function ToggledValue(checked: bool): (v: string)
    ensures v == "true" || v == "false"
  {
    if checked then "true" else "false"
  }

  /** Toggling the switch of setting `id` to `checked` leaves every entry with
      that id showing a switch in that position, and no other entry changed. */
  lemma ToggleRoundTrip(settings: seq<LaunchSetting>, id: int, checked: bool)
    ensures forall i :: 0 <= i < |settings| && settings[i].id == id ==>
      SwitchChecked(UpdateSetting(settings, id, ToggledValue(checked))[i]) == checked
  {
  }

  // ---------------------------------------------------------------------------
  // Writing back (saveSettings)

  /** The value column of the table, keyed by row id. */
  type Store = map<int, Option<string>>

  /** One `update ... eq('id', id)` statement. */
  datatype Update = Update(id: int, value: Option<string>)

  /** The statements saveSettings issues, one per setting, in list order. */
  function UpdatesOf(settings: seq<LaunchSetting>): (us: seq<Update>)
    ensures |us| == |settings|
    ensures forall i :: 0 <= i < |us| ==> us[i] == Update(settings[i].id, settings[i].settingValue)
  {
    seq(|settings|, i requires 0 <= i < |settings| => Update(settings[i].id, settings[i].settingValue))
  }

  /** An accepted update: a row with that id takes the value; when no row has
      that id the statement matches nothing and the table is unchanged. */
  function Written(store: Store, u: Update): Store {
    if u.id in store then store[u.id := u.value] else store
  }

  /** The table after the accepted updates `us`, applied in order. */
  function WriteAll(store: Store, us: seq<Update>): Store
    decreases |us|
  {
    if us == [] then store else Written(WriteAll(store, us[..|us| - 1]), us[|us| - 1])
  }

  /** Writes never add or remove rows. */
  lemma {:induction false} WriteAllKeys(store: Store, us: seq<Update>)
    ensures WriteAll(store, us).Keys == store.Keys
    decreases |us|
  {
    if us != [] {
      WriteAllKeys(store, us[..|us| - 1]);
    }
  }

  /** A row that no update names keeps its value. */
  lemma {:induction false} WriteAllElsewhere(store: Store, us: seq<Update>, id: int)
    requires id in store
    requires forall j :: 0 <= j < |us| ==> us[j].id != id
    ensures id in WriteAll(store, us) && WriteAll(store, us)[id] == store[id]
    decreases |us|
  {
    if us != [] {
      WriteAllElsewhere(store, us[..|us| - 1], id);
    }
  }

  /** The last update naming an existing row decides its value. */
  lemma {:induction false} WriteAllLastWins(store: Store, us: seq<Update>, i: nat)
    requires i < |us| && us[i].id in store
    requires forall j :: i < j < |us| ==> us[j].id != us[i].id
    ensures us[i].id in WriteAll(store, us) && WriteAll(store, us)[us[i].id] == us[i].value
    decreases |us|
  {
    var last := |us| - 1;
    WriteAllKeys(store, us[..last]);
    if i < last {
      WriteAllLastWins(store, us[..last], i);
    }
  }

  /** Ids are unique in the list, as they are in the table it was read from. */
  predicate UniqueIds(settings: seq<LaunchSetting>) {
    forall i, j :: 0 <= i < j < |settings| ==> settings[i].id != settings[j].id
  }

  /** After a save in which every write is accepted, each setting that has a
      row in the table holds the local value there, and every other row keeps
      its value. */
  lemma SavedValues(store: Store, settings: seq<LaunchSetting>)
    requires UniqueIds(settings)
    ensures WriteAll(store, UpdatesOf(settings)).Keys == store.Keys
    ensures forall i :: 0 <= i < |settings| && settings[i].id in store ==>
      WriteAll(store, UpdatesOf(settings))[settings[i].id] == settings[i].settingValue
    ensures forall id :: id in store && (forall i :: 0 <= i < |settings| ==> settings[i].id != id) ==>
      WriteAll(store, UpdatesOf(settings))[id] == store[id]
  {
    var us := UpdatesOf(settings);
    WriteAllKeys(store, us);
    forall i | 0 <= i < |settings| && settings[i].id in store
      ensures WriteAll(store, us)[settings[i].id] == settings[i].settingValue
    {
      WriteAllLastWins(store, us, i);
    }
    forall id | id in store && (forall i :: 0 <= i < |settings| ==> settings[i].id != id)
      ensures WriteAll(store, us)[id] == store[id]
    {
      WriteAllElsewhere(store, us, id);
    }
  }

  /** Number of writes attempted before the first refusal: the index of the
      first false outcome, or the length when there is none. */
  function FirstRefusal(accepted: seq<bool>): (k: nat)
    ensures k <= |accepted|
    ensures forall j :: 0 <= j < k ==> accepted[j]
    ensures k < |accepted| ==> !accepted[k]
  {
    if accepted == [] || !accepted[0] then 0 else 1 + FirstRefusal(accepted[1..])
  }

  /** The `launch_settings` table, reduced to the value column. */
  class SettingsTable {
    var values: Store

    constructor (values: Store)
      ensures this.values == values
    {
      this.values := values;
    }

    /** One update statement; `accepted` says whether the database reports no
        error. A refused statement changes nothing. */
    method Apply(u: Update, accepted: bool) returns (ok: bool)
      modifies this
      ensures ok == accepted
      ensures values == if accepted then Written(old(values), u) else old(values)
    {
      if accepted {
        values := Written(values, u);
      }
      ok := accepted;
    }
  }

  /** Result of the `select * order by id` query. */
  datatype SettingsQuery = Rows(rows: seq<LaunchSetting>) | QueryError(code: string)

  // ---------------------------------------------------------------------------
  // The component state and its events

  class LaunchSettingsPanel {
    var settings: seq<LaunchSetting>
    var loading: bool
    var saving: bool

    /** The state at mount. */
    constructor ()
      ensures settings == [] && loading && !saving
    {
      settings := [];
      loading := true;
      saving := false;
    }

    /** The load query completing: rows replace the list, an error keeps it;
        either way `loading` ends false. */
    method FetchSettings(result: SettingsQuery)
      modifies this
      ensures !loading && saving == old(saving)
      ensures result.Rows? ==> settings == result.rows
      ensures result.QueryError? ==> settings == old(settings)
    {
      if result.Rows? {
        settings := result.rows;
      }
      loading := false;
    }

    /** An input's change handler for setting `id`. */
    method EditSetting(id: int, value: string)
      modifies this
      ensures settings == UpdateSetting(old(settings), id, value)
      ensures loading == old(loading) && saving == old(saving)
    {
      settings := UpdateSetting(settings, id, value);
    }

    /** The save button: one update per setting, in list order, stopping at the
        first refused one. `accepted[k]` is the database's answer to the k-th
        update should it be issued. The writes made before a refusal stay in
        the table, and `saving` is false again afterwards. */
    method SaveSettings(table: SettingsTable, accepted: seq<bool>) returns (ok: bool)
      requires |accepted| == |settings|
      modifies this, table
      ensures settings == old(settings) && loading == old(loading) && !saving
      ensures ok == (FirstRefusal(accepted) == |settings|)
      ensures table.values == WriteAll(old(table.values), UpdatesOf(settings)[..FirstRefusal(accepted)])
    {
      saving := true;
      var updates := UpdatesOf(settings);
      ok := true;
      var i := 0;
      while i < |updates|
        invariant 0 <= i <= |updates| && saving
        invariant settings == old(settings) && loading == old(loading)
        invariant forall j :: 0 <= j < i ==> accepted[j]
        invariant table.values == WriteAll(old(table.values), updates[..i])
      {
        var written := table.Apply(updates[i], accepted[i]);
        if !written {
          ok := false;
          break;
        }
        assert updates[..i + 1][..i] == updates[..i];
        i := i + 1;
      }
      assert ok ==> i == |updates| && updates[..i] == updates;
      saving := false;
    }
  }
}
