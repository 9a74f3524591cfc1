/**
 * The configuration page's data (the `ConfigSection` and `ConfigSetting`
 * shapes of src/pages/ConfigPage.tsx) and the pure updater that
 * `handleSettingChange` hands to the state setter.
 */
module ConfigPage {
  import opened Wrappers

  datatype SettingType = Toggle | Text | Number | Select

  datatype SelectOption = SelectOption(caption: string, value: string)  // the source's `label`

  /**
   * A setting's value (`any` in the source): what the page's inputs can store.
   * The number input stores `parseInt`'s result: an integer, NaN, or, for a
   * digit string of more than about 309 digits, an infinity, which the model
   * folds into a large `NumberValue` (truthy, like the infinity).
   */
  datatype SettingValue = BoolValue(b: bool) | TextValue(text: string) | NumberValue(n: int) | NaN

  datatype ConfigSetting = ConfigSetting(
    id: string,
    caption: string,  // the source's `label`
    description: string,
    kind: SettingType,
    value: SettingValue,
    options: Option<seq<SelectOption>>)

  datatype ConfigSection = ConfigSection(
    id: string,
    title: string,
    description: string,
    settings: seq<ConfigSetting>)

  /** JavaScript truthiness of the values a setting can hold. */
  predicate Truthy(v: SettingValue) {
    match v
    case BoolValue(b) => b
    case TextValue(t) => t != ""
    case NumberValue(n) => n != 0
    case NaN => false
  }

  /** `!value`, the value a toggle click stores. */
  function Not(v: SettingValue): (r: SettingValue)
    ensures r.BoolValue? && r.b == !Truthy(v)
  {
    BoolValue(!Truthy(v))
  }

  /** No two sections share an id, and no two settings of a section share an id. */
  predicate UniqueIds(configs: seq<ConfigSection>) {
    && (forall i, i' :: 0 <= i < i' < |configs| ==> configs[i].id != configs[i'].id)
    && (forall i, j, j' :: 0 <= i < |configs| && 0 <= j < j' < |configs[i].settings| ==>
          configs[i].settings[j].id != configs[i].settings[j'].id)
  }

  /**
   * The page's initial configuration: two sections with one numeric setting
   * each, every id unique, and every value a number.
   */
  function InitialConfigs(): (r: seq<ConfigSection>)
    ensures |r| == 2 && UniqueIds(r)
    ensures forall i, j :: 0 <= i < |r| && 0 <= j < |r[i].settings| ==>
      r[i].settings[j].kind == Number && r[i].settings[j].value.NumberValue?
  {
    [ ConfigSection("general", "General Settings", "Basic application configuration",
        [ConfigSetting("max_file_size", "Max File Upload Size (MB)", "Maximum file size for uploads",
                       Number, NumberValue(10), None)]),
      ConfigSection("chat", "Chat Settings", "Configure chat-related features",
        [ConfigSetting("max_group_members", "Max Group Members", "Maximum number of members per group",
                       Number, NumberValue(50), None)]) ]
  }

  /** The inner `settings.map`: settings with the id get the new value, and nothing else of theirs changes. */
  function SetValueIn(settings: seq<ConfigSetting>, settingId: string, v: SettingValue): (r: seq<ConfigSetting>)
    ensures |r| == |settings|
    ensures forall j :: 0 <= j < |settings| ==>
      r[j] == if settings[j].id == settingId then settings[j].(value := v) else settings[j]
  {
    if settings == [] then []
    else [if settings[0].id == settingId then settings[0].(value := v) else settings[0]]
         + SetValueIn(settings[1..], settingId, v)
  }

  /**
   * The updater of `handleSettingChange`: the outer `map` over sections. Sections
   * keep their number and order; those without the id are returned as they are.
   */
  function UpdateSetting(configs: seq<ConfigSection>, sectionId: string, settingId: string, v: SettingValue)
    : (r: seq<ConfigSection>)
    ensures |r| == |configs|
    ensures forall i :: 0 <= i < |configs| ==>
      r[i] == if configs[i].id == sectionId
              then configs[i].(settings := SetValueIn(configs[i].settings, settingId, v))
              else configs[i]
  {
    if configs == [] then []
    else [if configs[0].id == sectionId
          then configs[0].(settings := SetValueIn(configs[0].settings, settingId, v))
          else configs[0]]
         + UpdateSetting(configs[1..], sectionId, settingId, v)
  }

  /** The setting at (`i`, `j`) is one the update addresses. */
  predicate Addressed(configs: seq<ConfigSection>, sectionId: string, settingId: string, i: int, j: int) {
    && 0 <= i < |configs| && configs[i].id == sectionId
    && 0 <= j < |configs[i].settings| && configs[i].settings[j].id == settingId
  }

  /** Every addressed setting already holds `v`. */
  ghost predicate AllAddressedHold(configs: seq<ConfigSection>, sectionId: string, settingId: string, v: SettingValue) {
    forall i, j :: Addressed(configs, sectionId, settingId, i, j) ==> configs[i].settings[j].value == v
  }

  /**
   * Inside each section the settings keep their number and order; only the
   * `value` of an addressed setting changes, to `v`; every other field, and
   * every other setting, is untouched.
   */
  lemma UpdateTouchesOnlyValues(configs: seq<ConfigSection>, sectionId: string, settingId: string, v: SettingValue,
                                i: int, j: int)
    requires 0 <= i < |configs| && 0 <= j < |configs[i].settings|
    ensures var r := UpdateSetting(configs, sectionId, settingId, v);
      && r[i].id == configs[i].id && r[i].title == configs[i].title
      && r[i].description == configs[i].description
      && |r[i].settings| == |configs[i].settings|
      && var s, s' := configs[i].settings[j], r[i].settings[j];
         && s'.id == s.id && s'.caption == s.caption && s'.description == s.description
         && s'.kind == s.kind && s'.options == s.options
         && s'.value == if Addressed(configs, sectionId, settingId, i, j) then v else s.value
  {
  }

  /** An update that finds every addressed setting already at `v` returns its input. */
  lemma {:induction false} UpdateAlreadyHeld(configs: seq<ConfigSection>, sectionId: string, settingId: string,
                                             v: SettingValue)
    requires AllAddressedHold(configs, sectionId, settingId, v)
    ensures UpdateSetting(configs, sectionId, settingId, v) == configs
  {
    var r := UpdateSetting(configs, sectionId, settingId, v);
    forall i | 0 <= i < |configs| ensures r[i] == configs[i] {
      if configs[i].id == sectionId {
        var ss := configs[i].settings;
        var ss' := SetValueIn(ss, settingId, v);
        forall j | 0 <= j < |ss| ensures ss'[j] == ss[j] {
          if ss[j].id == settingId {
            assert Addressed(configs, sectionId, settingId, i, j);
          }
        }
        assert ss' == ss;
      }
    }
  }

  /** If no section/setting pair matches, the result equals the input. */
  lemma UpdateWithoutMatch(configs: seq<ConfigSection>, sectionId: string, settingId: string, v: SettingValue)
    requires forall i, j :: !Addressed(configs, sectionId, settingId, i, j)
    ensures UpdateSetting(configs, sectionId, settingId, v) == configs
  {
    UpdateAlreadyHeld(configs, sectionId, settingId, v);
  }

  /** Of two updates of the same setting, the second wins. */
  lemma {:induction false} UpdateLastWins(configs: seq<ConfigSection>, sectionId: string, settingId: string,
                                          v: SettingValue, w: SettingValue)
    ensures UpdateSetting(UpdateSetting(configs, sectionId, settingId, v), sectionId, settingId, w)
         == UpdateSetting(configs, sectionId, settingId, w)
  {
    var once := UpdateSetting(configs, sectionId, settingId, v);
    var twice := UpdateSetting(once, sectionId, settingId, w);
    var direct := UpdateSetting(configs, sectionId, settingId, w);
    forall i | 0 <= i < |configs| ensures twice[i] == direct[i] {
      if configs[i].id == sectionId {
        var ss := configs[i].settings;
        assert SetValueIn(SetValueIn(ss, settingId, v), settingId, w) == SetValueIn(ss, settingId, w);
      }
    }
  }

  /** Applying the same update twice equals applying it once. */
  lemma UpdateIdempotent(configs: seq<ConfigSection>, sectionId: string, settingId: string, v: SettingValue)
    ensures UpdateSetting(UpdateSetting(configs, sectionId, settingId, v), sectionId, settingId, v)
         == UpdateSetting(configs, sectionId, settingId, v)
  {
    UpdateLastWins(configs, sectionId, settingId, v, v);
  }

  /**
   * A click on a toggle: every setting the click addresses gets the boolean
   * negation of the truthiness of the value the rendered setting shows; the
   * rest of the configuration is unchanged.
   */
  function ToggleClick(configs: seq<ConfigSection>, sectionId: string, setting: ConfigSetting): (r: seq<ConfigSection>)
    ensures |r| == |configs|
    ensures forall i :: 0 <= i < |configs| ==>
      |r[i].settings| == |configs[i].settings| && r[i].(settings := configs[i].settings) == configs[i]
    ensures forall i, j :: 0 <= i < |configs| && 0 <= j < |configs[i].settings| ==>
      r[i].settings[j] == if Addressed(configs, sectionId, setting.id, i, j)
                          then configs[i].settings[j].(value := BoolValue(!Truthy(setting.value)))
                          else configs[i].settings[j]
  {
    UpdateSetting(configs, sectionId, setting.id, Not(setting.value))
  }

  /** Two clicks on a boolean toggle give the clicked setting back its value, with no proviso. */
  lemma ToggleTwiceRestoresSetting(configs: seq<ConfigSection>, i: int, j: int, b: bool)
    requires 0 <= i < |configs| && 0 <= j < |configs[i].settings|
    requires configs[i].settings[j].value == BoolValue(b)
    ensures var sectionId := configs[i].id;
      var once := ToggleClick(configs, sectionId, configs[i].settings[j]);
      ToggleClick(once, sectionId, once[i].settings[j])[i].settings[j] == configs[i].settings[j]
  {
    var sectionId := configs[i].id;
    var once := ToggleClick(configs, sectionId, configs[i].settings[j]);
    assert Addressed(configs, sectionId, configs[i].settings[j].id, i, j);
    assert Addressed(once, sectionId, once[i].settings[j].id, i, j);
  }

  /** With unique ids, the only setting a click addresses is the clicked one. */
  lemma {:induction false} UniqueIdsAddressOne(configs: seq<ConfigSection>, i: int, j: int, v: SettingValue)
    requires UniqueIds(configs)
    requires 0 <= i < |configs| && 0 <= j < |configs[i].settings| && configs[i].settings[j].value == v
    ensures AllAddressedHold(configs, configs[i].id, configs[i].settings[j].id, v)
  {
    forall i', j' | Addressed(configs, configs[i].id, configs[i].settings[j].id, i', j')
      ensures configs[i'].settings[j'].value == v
    {
      assert i' == i;
      assert j' == j;
    }
  }

  /**
   * Two clicks on a boolean toggle restore the configuration, when every setting
   * the clicks address holds the same boolean (as it does when ids are unique,
   * by `UniqueIdsAddressOne`).
   */
  lemma ToggleTwiceRestores(configs: seq<ConfigSection>, i: int, j: int, b: bool)
    requires 0 <= i < |configs| && 0 <= j < |configs[i].settings|
    requires AllAddressedHold(configs, configs[i].id, configs[i].settings[j].id, BoolValue(b))
    ensures var sectionId := configs[i].id;
      var once := ToggleClick(configs, sectionId, configs[i].settings[j]);
      ToggleClick(once, sectionId, once[i].settings[j]) == configs
  {
    var sectionId, settingId := configs[i].id, configs[i].settings[j].id;
    assert Addressed(configs, sectionId, settingId, i, j);
    var once := ToggleClick(configs, sectionId, configs[i].settings[j]);
    assert once == UpdateSetting(configs, sectionId, settingId, BoolValue(!b));
    assert once[i].settings[j] == configs[i].settings[j].(value := BoolValue(!b));
    UpdateLastWins(configs, sectionId, settingId, BoolValue(!b), BoolValue(b));
    UpdateAlreadyHeld(configs, sectionId, settingId, BoolValue(b));
  }

  /** With unique ids, two clicks on a boolean toggle restore the whole configuration. */
  lemma ToggleTwiceRestoresUnique(configs: seq<ConfigSection>, i: int, j: int, b: bool)
    requires UniqueIds(configs)
    requires 0 <= i < |configs| && 0 <= j < |configs[i].settings| && configs[i].settings[j].value == BoolValue(b)
    ensures var sectionId := configs[i].id;
      var once := ToggleClick(configs, sectionId, configs[i].settings[j]);
      ToggleClick(once, sectionId, once[i].settings[j]) == configs
  {
    UniqueIdsAddressOne(configs, i, j, BoolValue(b));
    ToggleTwiceRestores(configs, i, j, b);
  }

  /** On the initial configuration, a setting id looked up in the wrong section changes nothing. */
  lemma InitialWrongSectionUnchanged(v: SettingValue)
    ensures UpdateSetting(InitialConfigs(), "general", "max_group_members", v) == InitialConfigs()
  {
    UpdateWithoutMatch(InitialConfigs(), "general", "max_group_members", v);
  }
}
