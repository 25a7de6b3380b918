/** The client editor's shared state and its reducer (`editorReducer`): four
    string-keyed caches (object details, parent trees, child-count records and
    pages of child lists) plus the plain settings the generic setters write. */
module EditorCache {
  import opened Wrappers
  import opened Strings
  import opened Hierarchy

  /** A JSON value, the payload of the generic setters. */
  datatype Json =
    | JNull
    | JBool(b: bool)
    | JNumber(n: int)
    | JString(s: string)
    | JArray(items: seq<Json>)
    | JObject(fields: map<string, Json>)

  /** The details the object-details endpoint returns for one PID. */
  datatype ObjectDetails = ObjectDetails(
    pid: string,
    models: seq<string>,
    state: string,
    sortOn: string,
    datastreams: seq<string>,
    metadata: map<string, seq<string>>)

  /** The two cached ancestor trees of one PID: one level deep, and complete. */
  datatype ParentSlots = ParentSlots(shallow: Option<TreeNode>, full: Option<TreeNode>)

  datatype ChildCounts = ChildCounts(directChildren: nat, totalDescendants: nat)

  /** One page of a child list as the search index returns it. */
  datatype ChildrenPage = ChildrenPage(numFound: Option<nat>, start: Option<nat>, docs: Option<seq<Json>>)

  /** The settings written through the generic `SET_*` actions, one per entry of `reducerMapping`. */
  datatype Field =
    | AgentsCatalog | DublinCoreFieldCatalog | FavoritePidsCatalog | TrashPid
    | ProcessMetadataDefaults | ToolPresets | VufindUrl | LicensesCatalog | ModelsCatalog
    | CurrentAgents | CurrentPid | ActiveDatastream | IsDatastreamModalOpen
    | IsParentsModalOpen | IsStateModalOpen | DatastreamModalState
    | ParentsModalActivePid | StateModalActivePid | TopLevelPids

  /** The action type string that writes each setting. */
  function SetterType(f: Field): string
  {
    match f
    case AgentsCatalog => "SET_AGENTS_CATALOG"
    case DublinCoreFieldCatalog => "SET_DUBLIN_CORE_FIELD_CATALOG"
    case FavoritePidsCatalog => "SET_FAVORITE_PIDS_CATALOG"
    case TrashPid => "SET_TRASH_PID"
    case ProcessMetadataDefaults => "SET_PROCESS_METADATA_DEFAULTS"
    case ToolPresets => "SET_TOOL_PRESETS"
    case VufindUrl => "SET_VUFIND_URL"
    case LicensesCatalog => "SET_LICENSES_CATALOG"
    case ModelsCatalog => "SET_MODELS_CATALOG"
    case CurrentAgents => "SET_CURRENT_AGENTS"
    case CurrentPid => "SET_CURRENT_PID"
    case ActiveDatastream => "SET_ACTIVE_DATASTREAM"
    case IsDatastreamModalOpen => "SET_IS_DATASTREAM_MODAL_OPEN"
    case IsParentsModalOpen => "SET_IS_PARENTS_MODAL_OPEN"
    case IsStateModalOpen => "SET_IS_STATE_MODAL_OPEN"
    case DatastreamModalState => "SET_DATASTREAM_MODAL_STATE"
    case ParentsModalActivePid => "SET_PARENTS_MODAL_ACTIVE_PID"
    case StateModalActivePid => "SET_STATE_MODAL_ACTIVE_PID"
    case TopLevelPids => "SET_TOP_LEVEL_PIDS"
  }

  /** The length of a type string and its first character after `SET_`,
      which already tell the setter types apart. */
  function TypeTag(typeName: string): (nat, char)
  {
    (|typeName|, if |typeName| > 4 then typeName[4] else ' ')
  }

  /** The tag of each setting's setter type. */
  function FieldTag(f: Field): (nat, char)
  {
    match f
    case AgentsCatalog => (18, 'A')
    case DublinCoreFieldCatalog => (29, 'D')
    case FavoritePidsCatalog => (25, 'F')
    case TrashPid => (13, 'T')
    case ProcessMetadataDefaults => (29, 'P')
    case ToolPresets => (16, 'T')
    case VufindUrl => (14, 'V')
    case LicensesCatalog => (20, 'L')
    case ModelsCatalog => (18, 'M')
    case CurrentAgents => (18, 'C')
    case CurrentPid => (15, 'C')
    case ActiveDatastream => (21, 'A')
    case IsDatastreamModalOpen => (28, 'I')
    case IsParentsModalOpen => (25, 'I')
    case IsStateModalOpen => (23, 'I')
    case DatastreamModalState => (26, 'D')
    case ParentsModalActivePid => (28, 'P')
    case StateModalActivePid => (26, 'S')
    case TopLevelPids => (18, 'T')
  }

  lemma TagOfSetterType(f: Field)
    ensures TypeTag(SetterType(f)) == FieldTag(f)
  {
  }

  lemma FieldTagInjective(f: Field, g: Field)
    ensures FieldTag(f) == FieldTag(g) ==> f == g
  {
  }

  /** No two settings share a setter type. */
  lemma SetterTypeInjective(f: Field, g: Field)
    ensures SetterType(f) == SetterType(g) ==> f == g
  {
    TagOfSetterType(f);
    TagOfSetterType(g);
    FieldTagInjective(f, g);
  }

  /** The keys of `reducerMapping`, in the order they are written. */
  const SetterOrder: seq<Field> := [
    AgentsCatalog, DublinCoreFieldCatalog, FavoritePidsCatalog, TrashPid, ProcessMetadataDefaults,
    ToolPresets, VufindUrl, LicensesCatalog, ModelsCatalog, CurrentAgents,
    CurrentPid, ActiveDatastream, IsDatastreamModalOpen, IsParentsModalOpen, IsStateModalOpen,
    DatastreamModalState, ParentsModalActivePid, StateModalActivePid, TopLevelPids]

  lemma SetterOrderHasAll(f: Field)
    ensures f in SetterOrder
  {
  }

  /** The first of `fields` whose setter type is `typeName`. */
  function FindSetter(fields: seq<Field>, typeName: string): (r: Option<Field>)
    ensures r.Some? ==> r.value in fields && SetterType(r.value) == typeName
    ensures r.None? ==> forall f :: f in fields ==> SetterType(f) != typeName
  {
    if |fields| == 0 then None
    else if SetterType(fields[0]) == typeName then Some(fields[0])
    else FindSetter(fields[1..], typeName)
  }

  /** `reducerMapping[type]`: the setting a `SET_*` type string writes, if any. */
  function SetterField(typeName: string): (r: Option<Field>)
    ensures r.Some? ==> SetterType(r.value) == typeName
    ensures r.None? ==> forall f: Field :: SetterType(f) != typeName
  {
    forall f: Field ensures f in SetterOrder { SetterOrderHasAll(f); }
    FindSetter(SetterOrder, typeName)
  }

  /** `reducerMapping` covers every setting, and the type of each setter names
      that setting and no other. */
  lemma SetterFieldOfType(f: Field)
    ensures SetterField(SetterType(f)) == Some(f)
  {
    var r := SetterField(SetterType(f));
    SetterOrderHasAll(f);
    SetterTypeInjective(r.value, f);
  }

  /** The value each setting starts with. */
  function InitialSetting(f: Field): Json
  {
    match f
    case TrashPid | CurrentPid | ActiveDatastream | DatastreamModalState
      | ParentsModalActivePid | StateModalActivePid => JNull
    case ToolPresets | CurrentAgents | TopLevelPids => JArray([])
    case VufindUrl => JString("")
    case IsDatastreamModalOpen | IsParentsModalOpen | IsStateModalOpen => JBool(false)
    case _ => JObject(map[])
  }

  datatype EditorState = EditorState(
    settings: map<Field, Json>,
    objectDetailsStorage: map<string, ObjectDetails>,
    parentDetailsStorage: map<string, ParentSlots>,
    childCountsStorage: map<string, ChildCounts>,
    childListStorage: map<string, ChildrenPage>)

  /** The state the editor context starts in: default settings and empty caches. */
  function InitialState(): EditorState
  {
    EditorState(map f | f in AllFields :: InitialSetting(f), map[], map[], map[], map[])
  }

  /** Every setting the context holds. */
  const AllFields: set<Field> := {
    AgentsCatalog, DublinCoreFieldCatalog, FavoritePidsCatalog, TrashPid, ProcessMetadataDefaults,
    ToolPresets, VufindUrl, LicensesCatalog, ModelsCatalog, CurrentAgents, CurrentPid,
    ActiveDatastream, IsDatastreamModalOpen, IsParentsModalOpen, IsStateModalOpen,
    DatastreamModalState, ParentsModalActivePid, StateModalActivePid, TopLevelPids}

  /** The initial state holds every setting at its default and no cached data. */
  lemma InitialStateIsComplete(f: Field)
    ensures var st := InitialState();
      && f in st.settings && st.settings[f] == InitialSetting(f)
      && st.objectDetailsStorage == map[] && st.parentDetailsStorage == map[]
      && st.childCountsStorage == map[] && st.childListStorage == map[]
  {
    match f {
      case AgentsCatalog => case DublinCoreFieldCatalog => case FavoritePidsCatalog =>
      case TrashPid => case ProcessMetadataDefaults => case ToolPresets => case VufindUrl =>
      case LicensesCatalog => case ModelsCatalog => case CurrentAgents => case CurrentPid =>
      case ActiveDatastream => case IsDatastreamModalOpen => case IsParentsModalOpen =>
      case IsStateModalOpen => case DatastreamModalState => case ParentsModalActivePid =>
      case StateModalActivePid => case TopLevelPids =>
    }
  }

  /** The actions the reducer understands; `Unrecognized` is any other type string. */
  datatype Action =
    | AddToObjectDetailsStorage(key: string, details: ObjectDetails)
    | RemoveFromObjectDetailsStorage(key: string)
    | AddToParentDetailsStorage(isShallow: bool, key: string, tree: TreeNode)
    | RemoveFromParentDetailsStorage(key: string)
    | AddToChildListStorage(key: string, children: ChildrenPage)
    | AddToChildCountsStorage(key: string, counts: ChildCounts)
    | ClearPidFromChildListStorage(pid: string)
    | ResetChildListStorage
    | ClearPidFromChildCountsStorage(pid: string)
    | Set(field: Field, value: Json)
    | Unrecognized(typeName: string)

  /** The last two branches of `editorReducer`, for a type that is none of the
      cache actions: a type listed in `reducerMapping` becomes a write of its
      setting with the payload as it is, any other type is reported and ignored. */
  function SetterAction(typeName: string, payload: Json): (a: Action)
    ensures a.Set? || a.Unrecognized?
    ensures a.Set? ==> SetterType(a.field) == typeName && a.value == payload
    ensures a.Unrecognized? ==> a.typeName == typeName && forall f: Field :: SetterType(f) != typeName
  {
    match SetterField(typeName)
    case Some(f) => Set(f, payload)
    case None => Unrecognized(typeName)
  }

  /** The key of one cached page of a PID's child list: `<pid>_<page>_<pageSize>`. */
  function ChildListKey(pid: string, page: nat, pageSize: nat): string
  {
    pid + "_" + NatToString(page) + "_" + NatToString(pageSize)
  }

  /** The entries of `m` whose key passes `keep`. */
  function Retained<V>(m: map<string, V>, keep: string -> bool): map<string, V>
  {
    map k | k in m && keep(k) :: m[k]
  }

  /** The new dictionary a `CLEAR_*` branch builds with its for-in filter:
      the loop form of `Retained`, which `Reduce` uses in its place. */
  method RetainKeys<V>(m: map<string, V>, keep: string -> bool) returns (r: map<string, V>)
    ensures forall k :: k in r <==> k in m && keep(k)
    ensures forall k :: k in r ==> r[k] == m[k]
    ensures r == Retained(m, keep)
  {
    r := map[];
    var todo := m.Keys;
    while todo != {}
      invariant todo <= m.Keys
      invariant forall k :: k in r <==> k in m && k !in todo && keep(k)
      invariant forall k :: k in r ==> r[k] == m[k]
      decreases |todo|
    {
      var key :| key in todo;
      if keep(key) {
        r := r[key := m[key]];
      }
      todo := todo - {key};
    }
  }

  /** `editorReducer`: the state after one dispatched action. */
  function Reduce(st: EditorState, a: Action): EditorState
  {
    match a
    case AddToObjectDetailsStorage(key, details) =>
      st.(objectDetailsStorage := st.objectDetailsStorage[key := details])
    case RemoveFromObjectDetailsStorage(key) =>
      st.(objectDetailsStorage := st.objectDetailsStorage - {key})
    case AddToParentDetailsStorage(isShallow, key, tree) =>
      var prior := if key in st.parentDetailsStorage then st.parentDetailsStorage[key] else ParentSlots(None, None);
      var slots := if isShallow then prior.(shallow := Some(tree)) else prior.(full := Some(tree));
      st.(parentDetailsStorage := st.parentDetailsStorage[key := slots])
    case RemoveFromParentDetailsStorage(key) =>
      st.(parentDetailsStorage := st.parentDetailsStorage - {key})
    case AddToChildListStorage(key, children) =>
      st.(childListStorage := st.childListStorage[key := children])
    case AddToChildCountsStorage(key, counts) =>
      st.(childCountsStorage := st.childCountsStorage[key := counts])
    case ClearPidFromChildListStorage(pid) =>
      st.(childListStorage := Retained(st.childListStorage, k => !StartsWith(k, pid + "_")))
    case ResetChildListStorage =>
      st.(childListStorage := map[])
    case ClearPidFromChildCountsStorage(pid) =>
      st.(childCountsStorage := Retained(st.childCountsStorage, k => k != pid))
    case Set(field, value) =>
      st.(settings := st.settings[field := value])
    case Unrecognized(_) =>
      st
  }

  /** `getParentCountForPid`: how many parents the cached tree of `pid` lists,
      from the shallow tree if there is one, else from the full one. */
  function ParentCount(storage: map<string, ParentSlots>, pid: string): Option<nat>
  {
    var slots := if pid in storage then storage[pid] else ParentSlots(None, None);
    match (slots.shallow, slots.full)
    case (Some(t), _) => Some(|t.parents|)
    case (None, Some(t)) => Some(|t.parents|)
    case (None, None) => None
  }

  // ---- Properties of the reducer ----

  /** Adding object details writes exactly one key and touches nothing else. */
  lemma AddObjectDetailsWritesOneKey(st: EditorState, key: string, d: ObjectDetails)
    ensures var r := Reduce(st, AddToObjectDetailsStorage(key, d));
      && r.objectDetailsStorage.Keys == st.objectDetailsStorage.Keys + {key}
      && r.objectDetailsStorage[key] == d
      && (forall k :: k in st.objectDetailsStorage && k != key ==> r.objectDetailsStorage[k] == st.objectDetailsStorage[k])
      && r.(objectDetailsStorage := st.objectDetailsStorage) == st
  {
  }

  /** Removing object details deletes exactly that key and touches nothing else. */
  lemma RemoveObjectDetailsDeletesOneKey(st: EditorState, key: string)
    ensures var r := Reduce(st, RemoveFromObjectDetailsStorage(key));
      && r.objectDetailsStorage.Keys == st.objectDetailsStorage.Keys - {key}
      && (forall k :: k in r.objectDetailsStorage ==> r.objectDetailsStorage[k] == st.objectDetailsStorage[k])
      && r.(objectDetailsStorage := st.objectDetailsStorage) == st
  {
  }

  /** Removing a pid's parent trees deletes exactly that key, both slots at
      once, and touches nothing else. */
  lemma RemoveParentDetailsDeletesOneKey(st: EditorState, key: string)
    ensures var r := Reduce(st, RemoveFromParentDetailsStorage(key));
      && r.parentDetailsStorage.Keys == st.parentDetailsStorage.Keys - {key}
      && (forall k :: k in r.parentDetailsStorage ==> r.parentDetailsStorage[k] == st.parentDetailsStorage[k])
      && r.(parentDetailsStorage := st.parentDetailsStorage) == st
  {
  }

  /** Storing a page of a child list sets that one key and touches nothing else. */
  lemma AddChildListWritesOneKey(st: EditorState, key: string, page: ChildrenPage)
    ensures var r := Reduce(st, AddToChildListStorage(key, page));
      && r.childListStorage.Keys == st.childListStorage.Keys + {key}
      && r.childListStorage[key] == page
      && (forall k :: k in st.childListStorage && k != key ==> r.childListStorage[k] == st.childListStorage[k])
      && r.(childListStorage := st.childListStorage) == st
  {
  }

  /** Storing child counts sets that one key and touches nothing else. */
  lemma AddChildCountsWritesOneKey(st: EditorState, key: string, counts: ChildCounts)
    ensures var r := Reduce(st, AddToChildCountsStorage(key, counts));
      && r.childCountsStorage.Keys == st.childCountsStorage.Keys + {key}
      && r.childCountsStorage[key] == counts
      && (forall k :: k in st.childCountsStorage && k != key ==> r.childCountsStorage[k] == st.childCountsStorage[k])
      && r.(childCountsStorage := st.childCountsStorage) == st
  {
  }

  /** Adding a parent tree fills only the requested slot of that key and keeps the other slot. */
  lemma AddParentDetailsWritesOneSlot(st: EditorState, isShallow: bool, key: string, t: TreeNode)
    ensures var r := Reduce(st, AddToParentDetailsStorage(isShallow, key, t));
      var before := if key in st.parentDetailsStorage then st.parentDetailsStorage[key] else ParentSlots(None, None);
      && r.parentDetailsStorage.Keys == st.parentDetailsStorage.Keys + {key}
      && (isShallow ==> r.parentDetailsStorage[key] == ParentSlots(Some(t), before.full))
      && (!isShallow ==> r.parentDetailsStorage[key] == ParentSlots(before.shallow, Some(t)))
      && (forall k :: k in st.parentDetailsStorage && k != key ==> r.parentDetailsStorage[k] == st.parentDetailsStorage[k])
      && r.(parentDetailsStorage := st.parentDetailsStorage) == st
  {
  }

  /** The parent count prefers the shallow tree, falls back to the full one, and is unknown otherwise. */
  lemma ParentCountPrefersShallow(storage: map<string, ParentSlots>, pid: string)
    ensures pid !in storage ==> ParentCount(storage, pid) == None
    ensures pid in storage && storage[pid].shallow.Some? ==>
      ParentCount(storage, pid) == Some(|storage[pid].shallow.value.parents|)
    ensures pid in storage && storage[pid].shallow.None? && storage[pid].full.Some? ==>
      ParentCount(storage, pid) == Some(|storage[pid].full.value.parents|)
    ensures pid in storage && storage[pid] == ParentSlots(None, None) ==> ParentCount(storage, pid) == None
  {
  }

  /** After a shallow tree is cached, the parent count is that tree's; a full tree
      cached afterwards does not change it. */
  lemma ParentCountAfterAdd(st: EditorState, key: string, shallowTree: TreeNode, fullTree: TreeNode)
    ensures var s1 := Reduce(st, AddToParentDetailsStorage(true, key, shallowTree));
      var s2 := Reduce(s1, AddToParentDetailsStorage(false, key, fullTree));
      && ParentCount(s1.parentDetailsStorage, key) == Some(|shallowTree.parents|)
      && ParentCount(s2.parentDetailsStorage, key) == Some(|shallowTree.parents|)
      && ParentCount(Reduce(s2, RemoveFromParentDetailsStorage(key)).parentDetailsStorage, key) == None
  {
  }

  /** Clearing a PID's child lists keeps exactly the keys that do not start with `pid_`, unchanged. */
  lemma ClearChildListKeepsOthers(st: EditorState, pid: string)
    ensures var r := Reduce(st, ClearPidFromChildListStorage(pid));
      && (forall k :: k in r.childListStorage <==> k in st.childListStorage && !StartsWith(k, pid + "_"))
      && (forall k :: k in r.childListStorage ==> r.childListStorage[k] == st.childListStorage[k])
      && r.(childListStorage := st.childListStorage) == st
  {
  }

  /** Every page key of `pid` is gone after its child lists are cleared. */
  lemma ClearChildListRemovesEveryPage(st: EditorState, pid: string, page: nat, pageSize: nat)
    ensures ChildListKey(pid, page, pageSize) !in Reduce(st, ClearPidFromChildListStorage(pid)).childListStorage
  {
    var key := ChildListKey(pid, page, pageSize);
    assert key == (pid + "_") + (NatToString(page) + "_" + NatToString(pageSize));
    assert StartsWith(key, pid + "_");
  }

  /** Between PIDs without an underscore, clearing one PID's child lists spares
      every page of any other PID. */
  lemma ClearChildListSparesOtherPids(st: EditorState, pid: string, other: string, page: nat, pageSize: nat)
    requires '_' !in pid && '_' !in other && pid != other
    requires ChildListKey(other, page, pageSize) in st.childListStorage
    ensures ChildListKey(other, page, pageSize) in Reduce(st, ClearPidFromChildListStorage(pid)).childListStorage
  {
    OtherPidKeyUnprefixed(pid, other, page, pageSize);
  }

  lemma OtherPidKeyUnprefixed(pid: string, other: string, page: nat, pageSize: nat)
    requires '_' !in pid && '_' !in other && pid != other
    ensures !StartsWith(ChildListKey(other, page, pageSize), pid + "_")
  {
    var key := ChildListKey(other, page, pageSize);
    var prefix := pid + "_";
    assert key[..|other| + 1] == other + "_";
    if |pid| < |other| {
      assert key[|pid|] == other[|pid|] && other[|pid|] != '_' && prefix[|pid|] == '_';
    } else if |other| < |pid| {
      assert key[|other|] == '_' && pid[|other|] != '_' && prefix[|other|] == pid[|other|];
    } else {
      assert key[..|pid|] == other && prefix[..|pid|] == pid;
    }
  }

  /** Clearing a PID's child counts removes exactly that key. */
  lemma ClearChildCountsRemovesOneKey(st: EditorState, pid: string)
    ensures var r := Reduce(st, ClearPidFromChildCountsStorage(pid));
      && r.childCountsStorage.Keys == st.childCountsStorage.Keys - {pid}
      && (forall k :: k in r.childCountsStorage ==> r.childCountsStorage[k] == st.childCountsStorage[k])
      && r.(childCountsStorage := st.childCountsStorage) == st
  {
    var r := Reduce(st, ClearPidFromChildCountsStorage(pid));
    assert r.childCountsStorage.Keys == st.childCountsStorage.Keys - {pid};
  }

  /** Resetting empties every child list and nothing else. */
  lemma ResetChildListEmptiesListsOnly(st: EditorState)
    ensures var r := Reduce(st, ResetChildListStorage);
      r.childListStorage == map[] && r.(childListStorage := st.childListStorage) == st
  {
  }

  /** Dispatching a setter's type writes that setting and nothing else. */
  lemma SetterDispatchWrites(st: EditorState, f: Field, v: Json)
    ensures Reduce(st, SetterAction(SetterType(f), v)) == st.(settings := st.settings[f := v])
  {
    SetterFieldOfType(f);
    var a := SetterAction(SetterType(f), v);
    assert a == Set(f, v);
    assert Reduce(st, a) == st.(settings := st.settings[f := v]);
  }

  /** Dispatching a type that no setter has leaves the state as it is. */
  lemma SetterDispatchIgnores(st: EditorState, unknown: string, v: Json)
    ensures (forall g: Field :: SetterType(g) != unknown) ==> Reduce(st, SetterAction(unknown, v)) == st
  {
  }

  /** A generic setter writes its one setting; an unrecognized action changes nothing. */
  lemma SetterWritesOneSetting(st: EditorState, f: Field, v: Json, unknown: string)
    ensures var r := Reduce(st, Set(f, v));
      && r.settings.Keys == st.settings.Keys + {f} && r.settings[f] == v
      && (forall g :: g in st.settings && g != f ==> r.settings[g] == st.settings[g])
      && r.(settings := st.settings) == st
    ensures Reduce(st, Unrecognized(unknown)) == st
  {
  }
}
