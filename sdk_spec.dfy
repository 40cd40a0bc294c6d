/** The attribute tables of the Touch Portal SDK: one table per collection of the
    plugin definition file (`entry.tp`), each mapping an attribute name to its
    minimum SDK version, whether it is required, its accepted Python types, its
    default value, its valid choices and the table of its child structures. */
module SdkSpec {
  import opened Outcomes
  import opened PyValue

  /** Default Touch Portal SDK version for generated definitions. */
  const DEFAULT_VERSION: int := 6

  /** The tables a `l` column can name. */
  datatype TableId =
    | SettingsTooltipTable | SettingsTable | StateTable | EventTable | ActDataTable
    | LineActSuggestionTable | LineObjTable | LineTable | ActionTable | ConnectorTable
    | CategoryTable | ConfigurationTable | RootTable

  /** One row of a table: `v` minimum SDK version, `r` required, `t` accepted types,
      `d` default value, `c` valid values (`[]` when the row has none: the code
      treats a missing and an empty list alike), `l` child table. */
  datatype Attrib = Attrib(v: int, r: bool, t: seq<PyType>, d: Option<Default>, c: seq<Value>, l: Option<TableId>)

  /** No table gives a dict as a default value. */
  type Default = v: Value | !v.Dict? witness Null

  type Table = seq<(string, Attrib)>

  /** A row without default, choices or child table. */
  function Plain(v: int, r: bool, t: PyType): Attrib {
    Attrib(v, r, [t], None, [], None)
  }

  function Defaulted(v: int, r: bool, t: PyType, d: Default): Attrib {
    Attrib(v, r, [t], Some(d), [], None)
  }

  function Choice(v: int, r: bool, t: PyType, d: Default, c: seq<Value>): Attrib {
    Attrib(v, r, [t], Some(d), c, None)
  }

  function Nested(v: int, r: bool, t: PyType, l: TableId): Attrib {
    Attrib(v, r, [t], None, [], Some(l))
  }

  const SETTINGS_TOOLTIP: Table := [
    ("title", Plain(7, false, TStr)),
    ("body", Plain(7, true, TStr)),
    ("docUrl", Plain(7, false, TStr))
  ]

  const SETTINGS: Table := [
    ("name", Plain(3, true, TStr)),
    ("type", Choice(3, true, TStr, Str("text"), [Str("text"), Str("number")])),
    ("default", Plain(3, false, TStr)),
    ("maxLength", Plain(3, false, TInt)),
    ("isPassword", Plain(3, false, TBool)),
    ("minValue", Plain(3, false, TInt)),
    ("maxValue", Plain(3, false, TInt)),
    ("readOnly", Defaulted(3, false, TBool, Bool(false))),
    ("tooltip", Nested(7, false, TDict, SettingsTooltipTable))
  ]

  const STATE: Table := [
    ("id", Plain(1, true, TStr)),
    ("type", Choice(1, true, TStr, Str("text"), [Str("text"), Str("choice")])),
    ("desc", Plain(1, true, TStr)),
    ("default", Defaulted(1, true, TStr, Str(""))),
    ("parentGroup", Plain(6, false, TStr)),
    ("valueChoices", Plain(1, false, TList))
  ]

  const EVENT: Table := [
    ("id", Plain(1, true, TStr)),
    ("name", Plain(1, true, TStr)),
    ("format", Plain(1, true, TStr)),
    ("type", Choice(1, true, TStr, Str("communicate"), [Str("communicate")])),
    ("valueChoices", Defaulted(1, true, TList, List([]))),
    ("valueType", Choice(1, true, TStr, Str("choice"), [Str("choice")])),
    ("valueStateId", Plain(1, true, TStr))
  ]

  const ACT_DATA: Table := [
    ("id", Plain(1, true, TStr)),
    ("type", Choice(1, true, TStr, Str("text"),
                    [Str("text"), Str("number"), Str("switch"), Str("choice"), Str("file"), Str("folder"), Str("color")])),
    ("label", Plain(1, true, TStr)),
    ("default", Attrib(1, true, [TStr, TInt, TFloat, TBool], Some(Str("")), [], None)),
    ("valueChoices", Plain(1, false, TList)),
    ("extensions", Plain(2, false, TList)),
    ("allowDecimals", Plain(2, false, TBool)),
    ("minValue", Plain(3, false, TInt)),
    ("maxValue", Plain(3, false, TInt))
  ]

  const LINEACT_SUGGESTION: Table := [
    ("firstLineItemLabelWidth", Plain(7, false, TInt)),
    ("lineIndentation", Plain(7, false, TInt))
  ]

  const LINE_OBJ: Table := [
    ("language", Defaulted(7, true, TStr, Str("default"))),
    ("data", Nested(7, true, TList, ActDataTable)),
    ("suggestions", Nested(7, false, TDict, LineActSuggestionTable))
  ]

  const LINE: Table := [
    ("action", Nested(7, false, TList, LineObjTable)),
    ("onHold", Nested(7, false, TList, LineObjTable))
  ]

  const ACTION: Table := [
    ("id", Plain(1, true, TStr)),
    ("name", Plain(1, true, TStr)),
    ("name_nl", Plain(7, false, TStr)),
    ("name_de", Plain(7, false, TStr)),
    ("name_es", Plain(7, false, TStr)),
    ("name_fr", Plain(7, false, TStr)),
    ("name_pt", Plain(7, false, TStr)),
    ("name_tr", Plain(7, false, TStr)),
    ("prefix", Plain(1, true, TStr)),
    ("type", Choice(1, true, TStr, Str("communicate"), [Str("communicate"), Str("execute")])),
    ("description", Plain(1, false, TStr)),
    ("format", Plain(1, false, TStr)),
    ("executionType", Plain(1, false, TStr)),
    ("execution_cmd", Plain(1, false, TStr)),
    ("tryInline", Plain(1, false, TBool)),
    ("hasHoldFunctionality", Plain(3, false, TBool)),
    ("data", Nested(1, false, TList, ActDataTable)),
    ("lines", Nested(7, true, TDict, LineTable))
  ]

  const CONNECTOR: Table := [
    ("id", Plain(4, true, TStr)),
    ("name", Plain(4, true, TStr)),
    ("format", Plain(4, false, TStr)),
    ("data", Nested(4, false, TList, ActDataTable))
  ]

  const CATEGORY: Table := [
    ("id", Plain(1, true, TStr)),
    ("name", Plain(1, true, TStr)),
    ("imagepath", Plain(1, false, TStr)),
    ("subCategories", Plain(7, false, TList)),
    ("actions", Nested(1, false, TList, ActionTable)),
    ("connectors", Nested(4, false, TList, ConnectorTable)),
    ("states", Nested(1, false, TList, StateTable)),
    ("events", Nested(1, false, TList, EventTable))
  ]

  const CONFIGURATION: Table := [
    ("colorDark", Plain(1, false, TStr)),
    ("colorLight", Plain(1, false, TStr)),
    ("parentCategory", Choice(7, false, TStr, Str("misc"),
                              [Str("audio"), Str("streaming"), Str("content"), Str("homeautomation"), Str("social"), Str("games"), Str("misc")]))
  ]

  const ROOT: Table := [
    ("sdk", Choice(1, true, TInt, Int(DEFAULT_VERSION), [Int(1), Int(2), Int(3), Int(4), Int(5), Int(6)])),
    ("api", Choice(7, true, TInt, Int(DEFAULT_VERSION), [Int(1), Int(2), Int(3), Int(4), Int(5), Int(6), Int(7)])),
    ("version", Defaulted(1, true, TInt, Int(1))),
    ("name", Plain(1, true, TStr)),
    ("id", Plain(1, true, TStr)),
    ("configuration", Nested(1, false, TDict, ConfigurationTable)),
    ("plugin_start_cmd", Plain(1, false, TStr)),
    ("plugin_start_cmd_windows", Plain(4, false, TStr)),
    ("plugin_start_cmd_linux", Plain(4, false, TStr)),
    ("plugin_start_cmd_mac", Plain(4, false, TStr)),
    ("categories", Attrib(1, true, [TList], Some(List([])), [], Some(CategoryTable))),
    ("settings", Attrib(3, false, [TList], Some(List([])), [], Some(SettingsTable)))
  ]

  /** The table a `l` column names. */
  function TableOf(id: TableId): Table {
    match id
    case SettingsTooltipTable => SETTINGS_TOOLTIP
    case SettingsTable => SETTINGS
    case StateTable => STATE
    case EventTable => EVENT
    case ActDataTable => ACT_DATA
    case LineActSuggestionTable => LINEACT_SUGGESTION
    case LineObjTable => LINE_OBJ
    case LineTable => LINE
    case ActionTable => ACTION
    case ConnectorTable => CONNECTOR
    case CategoryTable => CATEGORY
    case ConfigurationTable => CONFIGURATION
    case RootTable => ROOT
  }

  /** A way to look tables up by name; the SDK's own is `TableOf`. */
  type Tables = TableId -> Table

  /** `data.get('l', {})`: the child table of a row, or the empty table. */
  function ChildTable(tables: Tables, a: Attrib): Table {
    match a.l
    case None => []
    case Some(id) => tables(id)
  }

  /** Every default that comes with a list of choices is one of those choices. */
  predicate DefaultsAmongChoices(t: Table) {
    forall i :: 0 <= i < |t| && t[i].1.d.Some? && t[i].1.c != [] ==> PyIn(t[i].1.d.value, t[i].1.c)
  }

  /** Each row has exactly one type and only list or dict rows name a child table. */
  predicate ChildTablesTyped(t: Table) {
    forall i :: 0 <= i < |t| && t[i].1.l.Some? ==> t[i].1.t == [TList] || t[i].1.t == [TDict]
  }

  lemma RootSdkDefault()
    ensures Lookup(ROOT, "sdk").Some?
    ensures Lookup(ROOT, "sdk").value.d == Some(Int(DEFAULT_VERSION))
    ensures PyIn(Int(DEFAULT_VERSION), Lookup(ROOT, "sdk").value.c)
    ensures Lookup(ROOT, "api").Some? && Lookup(ROOT, "api").value.v > DEFAULT_VERSION
  {
    assert PyEq(Int(DEFAULT_VERSION), Lookup(ROOT, "sdk").value.c[5]);
  }

  // Every table keeps its defaults among its choices and types its child tables.

  lemma TableWellFormedSettingsTooltip()
    ensures DefaultsAmongChoices(SETTINGS_TOOLTIP) && ChildTablesTyped(SETTINGS_TOOLTIP)
  {
  }

  lemma TableWellFormedSettings()
    ensures DefaultsAmongChoices(SETTINGS) && ChildTablesTyped(SETTINGS)
  {
    assert PyEq(SETTINGS[1].1.d.value, SETTINGS[1].1.c[0]);
  }

  lemma TableWellFormedState()
    ensures DefaultsAmongChoices(STATE) && ChildTablesTyped(STATE)
  {
    assert PyEq(STATE[1].1.d.value, STATE[1].1.c[0]);
  }

  lemma TableWellFormedEvent()
    ensures DefaultsAmongChoices(EVENT) && ChildTablesTyped(EVENT)
  {
    assert PyEq(EVENT[3].1.d.value, EVENT[3].1.c[0]);
    assert PyEq(EVENT[5].1.d.value, EVENT[5].1.c[0]);
  }

  lemma TableWellFormedActData()
    ensures DefaultsAmongChoices(ACT_DATA) && ChildTablesTyped(ACT_DATA)
  {
    assert PyEq(ACT_DATA[1].1.d.value, ACT_DATA[1].1.c[0]);
  }

  lemma TableWellFormedLineactSuggestion()
    ensures DefaultsAmongChoices(LINEACT_SUGGESTION) && ChildTablesTyped(LINEACT_SUGGESTION)
  {
  }

  lemma TableWellFormedLineObj()
    ensures DefaultsAmongChoices(LINE_OBJ) && ChildTablesTyped(LINE_OBJ)
  {
  }

  lemma TableWellFormedLine()
    ensures DefaultsAmongChoices(LINE) && ChildTablesTyped(LINE)
  {
  }

  lemma TableWellFormedAction()
    ensures DefaultsAmongChoices(ACTION) && ChildTablesTyped(ACTION)
  {
    assert PyEq(ACTION[9].1.d.value, ACTION[9].1.c[0]);
  }

  lemma TableWellFormedConnector()
    ensures DefaultsAmongChoices(CONNECTOR) && ChildTablesTyped(CONNECTOR)
  {
  }

  lemma TableWellFormedCategory()
    ensures DefaultsAmongChoices(CATEGORY) && ChildTablesTyped(CATEGORY)
  {
  }

  lemma TableWellFormedConfiguration()
    ensures DefaultsAmongChoices(CONFIGURATION) && ChildTablesTyped(CONFIGURATION)
  {
    assert PyEq(CONFIGURATION[2].1.d.value, CONFIGURATION[2].1.c[6]);
  }

  lemma TableWellFormedRoot()
    ensures DefaultsAmongChoices(ROOT) && ChildTablesTyped(ROOT)
  {
    assert PyEq(ROOT[0].1.d.value, ROOT[0].1.c[5]);
    assert PyEq(ROOT[1].1.d.value, ROOT[1].1.c[5]);
  }

  /** The plugin root requires `sdk`, `api`, `version`, `name`, `id` and `categories`. */
  lemma RootRequiredKeys()
    ensures forall i :: 0 <= i < |ROOT| ==>
      ROOT[i].1.r == (ROOT[i].0 in ["sdk", "api", "version", "name", "id", "categories"])
  {
  }

  lemma ConnectorRowsNeedVersion4()
    ensures forall i :: 0 <= i < |CONNECTOR| ==> CONNECTOR[i].1.v == 4
  {
  }

  lemma SettingsRowsNeedVersion3()
    ensures forall i :: 0 <= i < |SETTINGS| ==>
      SETTINGS[i].1.v == (if SETTINGS[i].0 == "tooltip" then 7 else 3)
  {
  }
}
