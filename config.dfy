/**
 * The pipeline's configuration: built-in defaults, and the merge of a user
 * settings document over them. The settings document is taken as already parsed
 * (a YAML value, or nothing when the settings file does not exist).
 */
module Config {
  import opened Wrappers

  /** A parsed YAML value. */
  datatype Value =
    | Null
    | Bool(b: bool)
    | Int(i: int)
    | Real(r: real)
    | Str(s: string)
    | List(items: seq<Value>)
    | Dict(entries: map<string, Value>)

  /** Python truthiness of a parsed value. */
  predicate Truthy(v: Value) {
    match v
    case Null => false
    case Bool(b) => b
    case Int(i) => i != 0
    case Real(r) => r != 0.0
    case Str(s) => s != ""
    case List(items) => items != []
    case Dict(entries) => entries != map[]
  }

  /** Why loading failed: the exception the merge raises. */
  datatype ConfigError =
    | NotAMapping                     // a non-empty document that is not a mapping has no `.get`
    | SectionNotMergeable(section: string)  // `dict.update` refuses the section's value

  const OscSection := "osc"
  const ConstellationSection := "constellation"
  const DashboardSection := "dashboard"

  /** The three nested sections that are merged key by key. */
  predicate IsSection(k: string) {
    k == OscSection || k == ConstellationSection || k == DashboardSection
  }

  const DefaultDashboard: map<string, Value> := map[
    "enabled" := Bool(true),
    "host" := Str("127.0.0.1"),
    "port" := Int(8765)]

  const DefaultConstellation: map<string, Value> := map[
    "enabled" := Bool(true),
    "neighbors" := Int(3),
    "point_radius" := Int(3),
    "line_thickness" := Int(1)]

  const DefaultOsc: map<string, Value> := map[
    "enabled" := Bool(true),
    "host" := Str("127.0.0.1"),
    "port" := Int(9000),
    "send_landmarks" := Bool(false),
    "fps_interval_sec" := Real(0.5)]

  /** `DEFAULT_CONFIG` */
  const DefaultConfig: map<string, Value> := map[
    "camera_index" := Int(0),
    "width" := Int(1280),
    "height" := Int(720),
    "mirror" := Bool(true),
    "max_num_hands" := Int(1),
    "min_detection_confidence" := Real(0.6),
    "min_tracking_confidence" := Real(0.6),
    "show_camera_background" := Bool(false),
    "capture_frames_on_change" := Bool(true),
    "frames_dir" := Str("frames"),
    "logs_dir" := Str("logs"),
    "window_title" := Str("Thesidia-HandControl-Alpha"),
    "black_background" := Bool(true),
    "draw_fps" := Bool(true),
    DashboardSection := Dict(DefaultDashboard),
    ConstellationSection := Dict(DefaultConstellation),
    OscSection := Dict(DefaultOsc)]

  /** A configuration that holds each of the three sections as a mapping, as the defaults do. */
  predicate HasSections(base: map<string, Value>) {
    OscSection in base && base[OscSection].Dict? &&
    ConstellationSection in base && base[ConstellationSection].Dict? &&
    DashboardSection in base && base[DashboardSection].Dict?
  }

  /** The entries of one of the three sections. */
  function SectionOf(base: map<string, Value>, section: string): map<string, Value>
    requires HasSections(base) && IsSection(section)
  {
    base[section].entries
  }

  /** The defaults hold each section as a mapping of its default entries. */
  lemma DefaultsHaveSections()
    ensures HasSections(DefaultConfig)
    ensures SectionOf(DefaultConfig, OscSection) == DefaultOsc
    ensures SectionOf(DefaultConfig, ConstellationSection) == DefaultConstellation
    ensures SectionOf(DefaultConfig, DashboardSection) == DefaultDashboard
  {
  }

  /**
   * `base.update(value)`: a mapping's entries override the base; an empty string or
   * an empty list adds nothing; any other value is refused.
   */
  function UpdateWith(base: map<string, Value>, value: Value): (r: Option<map<string, Value>>)
    ensures value.Dict? ==> r == Some(base + value.entries)
    ensures !value.Dict? && r.Some? ==> r.value == base
    ensures r.None? <==> !(value.Dict? || value == Str("") || value == List([]))
  {
    match value
    case Dict(entries) => Some(base + entries)
    case Str(s) => if s == "" then Some(base) else None
    case List(items) => if items == [] then Some(base) else None
    case _ => None
  }

  /** The user's entry for a key, or the empty mapping when absent (`.get(key, {})`). */
  function GetOrEmpty(user: map<string, Value>, key: string): Value {
    if key in user then user[key] else Dict(map[])
  }

  /** One section: a copy of the base's section updated with the user's entry for it. */
  function MergeSection(base: map<string, Value>, user: map<string, Value>, section: string)
    : Result<map<string, Value>, ConfigError>
    requires HasSections(base) && IsSection(section)
  {
    match UpdateWith(SectionOf(base, section), GetOrEmpty(user, section))
    case Some(m) => Ok(m)
    case None => Err(SectionNotMergeable(section))
  }

  /** The user's top-level entries other than the three sections. */
  function OtherEntries(user: map<string, Value>): (r: map<string, Value>)
    ensures forall k :: k in r <==> k in user && !IsSection(k)
    ensures forall k :: k in r ==> r[k] == user[k]
  {
    map k | k in user && !IsSection(k) :: user[k]
  }

  /**
   * The merged document: the base with the other user entries laid over it, then
   * the three merged sections put in place.
   */
  function Assemble(base: map<string, Value>, others: map<string, Value>,
                    osc: map<string, Value>, constellation: map<string, Value>,
                    dashboard: map<string, Value>): map<string, Value>
  {
    (base + others)[OscSection := Dict(osc)][ConstellationSection := Dict(constellation)]
      [DashboardSection := Dict(dashboard)]
  }

  /** What the merged document holds under each key. */
  lemma AssembleAt(base: map<string, Value>, others: map<string, Value>,
                   osc: map<string, Value>, constellation: map<string, Value>,
                   dashboard: map<string, Value>, key: string)
    ensures var c := Assemble(base, others, osc, constellation, dashboard);
      (key == OscSection ==> key in c && c[key] == Dict(osc)) &&
      (key == ConstellationSection ==> key in c && c[key] == Dict(constellation)) &&
      (key == DashboardSection ==> key in c && c[key] == Dict(dashboard)) &&
      (!IsSection(key) ==> (key in c <==> key in base || key in others)) &&
      (!IsSection(key) && key in others ==> c[key] == others[key]) &&
      (!IsSection(key) && key in base && key !in others ==> c[key] == base[key])
  {
  }

  /**
   * The merge of a user document that is a mapping: the three sections merged key
   * by key (osc first, then constellation, then dashboard; the first refusal is
   * the error), every other user key overriding the base's.
   */
  function MergeUser(base: map<string, Value>, user: map<string, Value>): Result<map<string, Value>, ConfigError>
    requires HasSections(base)
  {
    match MergeSection(base, user, OscSection)
    case Err(e) => Err(e)
    case Ok(osc) =>
      match MergeSection(base, user, ConstellationSection)
      case Err(e) => Err(e)
      case Ok(constellation) =>
        match MergeSection(base, user, DashboardSection)
        case Err(e) => Err(e)
        case Ok(dashboard) =>
          Ok(Assemble(base, OtherEntries(user), osc, constellation, dashboard))
  }

  /**
   * The merge of a settings document over a base configuration: the base itself
   * when there is no settings file; an empty document (null, false, 0, "", an empty
   * list or mapping) counts as an empty mapping; any other non-mapping fails.
   */
  function LoadOver(base: map<string, Value>, file: Option<Value>): (r: Result<map<string, Value>, ConfigError>)
    requires HasSections(base)
    ensures file.None? ==> r == Ok(base)
    ensures file.Some? && Truthy(file.value) && !file.value.Dict? ==> r == Err(NotAMapping)
  {
    if file.None? then Ok(base)
    else if !Truthy(file.value) then MergeUser(base, map[])
    else if file.value.Dict? then MergeUser(base, file.value.entries)
    else Err(NotAMapping)
  }

  /** `load_config`: the settings document merged over the defaults. */
  function LoadConfig(file: Option<Value>): (r: Result<map<string, Value>, ConfigError>)
    ensures file.None? ==> r == Ok(DefaultConfig)
    ensures file.Some? && Truthy(file.value) && !file.value.Dict? ==> r == Err(NotAMapping)
  {
    DefaultsHaveSections();
    LoadOver(DefaultConfig, file)
  }

  /** The user mapping a loaded document amounts to. */
  function UserEntries(file: Option<Value>): map<string, Value> {
    if file.Some? && file.value.Dict? then file.value.entries else map[]
  }

  /** A successful merge is the base assembled with the three merged sections. */
  lemma MergeUserAssembles(base: map<string, Value>, user: map<string, Value>)
    requires HasSections(base)
    requires MergeUser(base, user).Ok?
    ensures MergeSection(base, user, OscSection).Ok?
    ensures MergeSection(base, user, ConstellationSection).Ok?
    ensures MergeSection(base, user, DashboardSection).Ok?
    ensures MergeUser(base, user).value ==
      Assemble(base, OtherEntries(user), MergeSection(base, user, OscSection).value,
               MergeSection(base, user, ConstellationSection).value,
               MergeSection(base, user, DashboardSection).value)
  {
  }

  /** Without a settings file, or with an empty one, the base comes back unchanged. */
  lemma EmptyFileGivesDefaults(base: map<string, Value>, file: Option<Value>)
    requires HasSections(base)
    requires file.None? || !Truthy(file.value)
    ensures LoadOver(base, file) == Ok(base)
  {
    if file.Some? {
      var empty: map<string, Value> := map[];
      var osc, constellation, dashboard :=
        SectionOf(base, OscSection), SectionOf(base, ConstellationSection), SectionOf(base, DashboardSection);
      assert OtherEntries(empty) == empty;
      assert osc + empty == osc;
      assert constellation + empty == constellation;
      assert dashboard + empty == dashboard;
      assert MergeUser(base, empty) == Ok(Assemble(base, empty, osc, constellation, dashboard));
      var c := Assemble(base, empty, osc, constellation, dashboard);
      forall k
        ensures k in c <==> k in base
        ensures k in c ==> c[k] == base[k]
      {
        AssembleAt(base, empty, osc, constellation, dashboard, k);
      }
      assert c == base;
    }
  }

  /**
   * Loading fails exactly when the document is a non-empty non-mapping, or one of
   * the three sections holds something `dict.update` refuses (the first such section
   * in the order osc, constellation, dashboard is reported).
   */
  lemma LoadConfigFails(base: map<string, Value>, file: Option<Value>)
    requires HasSections(base)
    ensures LoadOver(base, file).Err? <==>
      file.Some? && Truthy(file.value) &&
      (!file.value.Dict? ||
       exists s :: IsSection(s) && UpdateWith(SectionOf(base, s), GetOrEmpty(file.value.entries, s)).None?)
  {
    if file.Some? && Truthy(file.value) && file.value.Dict? {
      var user := file.value.entries;
      if MergeSection(base, user, OscSection).Err? {
        assert IsSection(OscSection);
      } else if MergeSection(base, user, ConstellationSection).Err? {
        assert IsSection(ConstellationSection);
      } else if MergeSection(base, user, DashboardSection).Err? {
        assert IsSection(DashboardSection);
      }
    } else if file.Some? && !Truthy(file.value) {
      EmptyFileGivesDefaults(base, file);
    }
  }

  /**
   * Each of the three sections is deep-merged: the result holds the base section's
   * keys and the user's, the user's values winning, and every base key the user
   * omits surviving with its base value.
   */
  lemma SectionsMergeKeyByKey(base: map<string, Value>, file: Option<Value>, section: string, key: string)
    requires HasSections(base) && IsSection(section)
    requires LoadOver(base, file).Ok?
    ensures var c, d := LoadOver(base, file).value, SectionOf(base, section);
      var user := GetOrEmpty(UserEntries(file), section);
      section in c && c[section].Dict? &&
      (key in c[section].entries <==> key in d || (user.Dict? && key in user.entries)) &&
      (user.Dict? && key in user.entries ==> c[section].entries[key] == user.entries[key]) &&
      (key in d && !(user.Dict? && key in user.entries) ==> c[section].entries[key] == d[key])
  {
    var user := UserEntries(file);
    if file.None? || !Truthy(file.value) {
      EmptyFileGivesDefaults(base, file);
      assert GetOrEmpty(user, section) == Dict(map[]);
      assert SectionOf(base, section) + map[] == SectionOf(base, section);
    } else {
      MergeUserAssembles(base, user);
      AssembleAt(base, OtherEntries(user), MergeSection(base, user, OscSection).value,
                 MergeSection(base, user, ConstellationSection).value,
                 MergeSection(base, user, DashboardSection).value, section);
    }
    assert LoadOver(base, file).value[section] == Dict(MergeSection(base, user, section).value);
  }

  /**
   * Every other top-level key: the user's value wins when given, the base's
   * survives otherwise, and no other key appears.
   */
  lemma OtherKeysOverride(base: map<string, Value>, file: Option<Value>, key: string)
    requires HasSections(base) && !IsSection(key)
    requires LoadOver(base, file).Ok?
    ensures var c, user := LoadOver(base, file).value, UserEntries(file);
      (key in c <==> key in base || key in user) &&
      (key in user ==> c[key] == user[key]) &&
      (key in base && key !in user ==> c[key] == base[key])
  {
    if file.None? || !Truthy(file.value) {
      EmptyFileGivesDefaults(base, file);
    } else {
      var user := UserEntries(file);
      MergeUserAssembles(base, user);
      AssembleAt(base, OtherEntries(user), MergeSection(base, user, OscSection).value,
                 MergeSection(base, user, ConstellationSection).value,
                 MergeSection(base, user, DashboardSection).value, key);
    }
  }

  /** Loading a document that spells out the base gives the base back. */
  lemma DefaultsAreAFixedPoint(base: map<string, Value>)
    requires HasSections(base)
    ensures LoadOver(base, Some(Dict(base))) == Ok(base)
  {
    var file := Some(Dict(base));
    assert Truthy(Dict(base)) by { assert OscSection in base; }
    var osc, constellation, dashboard :=
      SectionOf(base, OscSection), SectionOf(base, ConstellationSection), SectionOf(base, DashboardSection);
    assert osc + osc == osc;
    assert constellation + constellation == constellation;
    assert dashboard + dashboard == dashboard;
    assert MergeUser(base, base) == Ok(Assemble(base, OtherEntries(base), osc, constellation, dashboard));
    var c := Assemble(base, OtherEntries(base), osc, constellation, dashboard);
    forall k
      ensures k in c <==> k in base
      ensures k in c ==> c[k] == base[k]
    {
      AssembleAt(base, OtherEntries(base), osc, constellation, dashboard, k);
    }
    assert c == base;
  }
}
