/**
 * The GoodData platform as the client sees it: workspaces with their content,
 * permissions and user-data filters, data sources, the permissions each user and
 * group holds on data sources, the user and group directories, and the Snowflake
 * tables a data-source scan would find. Each client call is a pure transition of
 * this state; the client class in `client.dfy` is proved against them.
 */
module Remote {
  import opened Wrappers
  import opened Text
  import opened Snowflake
  import opened Descriptor
  import opened Permissions
  import opened Identity

  /** A table or view found by scanning a data source. */
  datatype PdmTable = PdmTable(id: string, columns: seq<Column>)

  /** A workspace's logical data model: imported from a descriptor, or generated from scanned tables. */
  datatype RemoteLdm = Declared(ldm: DeclarativeLdm) | Generated(dataSourceId: string, tables: seq<PdmTable>)

  /** A workspace's declarative content. */
  datatype Content = Content(ldm: Option<RemoteLdm>, analytics: Option<Blob>)

  /** The content a descriptor's workspace layout describes. */
  function ContentOf(layout: WorkspaceLayout): Content
  {
    Content(if layout.ldm.Some? then Some(Declared(layout.ldm.value)) else None, layout.analytics)
  }

  /** The analytics part of the content an emptied workspace gets: every list empty. */
  const EmptyAnalytics := Blob("{\"analyticalDashboardExtensions\": [], \"analyticalDashboards\": [], "
    + "\"attributeHierarchies\": [], \"dashboardPlugins\": [], \"filterContexts\": [], \"metrics\": [], "
    + "\"visualizationObjects\": []}")

  /** `EMPTY_CONTENT`: no datasets, no date instances, no analytics objects. */
  const EmptyContent := Content(Some(Declared(DeclarativeLdm([], []))), Some(EmptyAnalytics))

  /** A user-data filter stored in a workspace: its id (possibly missing), MAQL, title and user. */
  datatype RemoteFilter = RemoteFilter(id: Option<string>, maql: string, title: string, userId: string)

  datatype Workspace = Workspace(
    name: string,
    parent: Option<string>,
    content: Content,
    permissions: WorkspacePermissions,
    filters: seq<RemoteFilter>)

  datatype DataSource = DataSource(name: string, database: string, schema: string)

  datatype RemoteState = RemoteState(
    workspaces: map<string, Workspace>,
    dataSources: map<string, DataSource>,
    userPermissions: map<string, PermissionAssignments>,
    groupPermissions: map<string, PermissionAssignments>,
    users: seq<CatalogUser>,
    groups: seq<CatalogUserGroup>,
    warehouse: map<(string, string), seq<PdmTable>>)   // (database, schema) -> its tables and views

  // ---------------------------------------------------------------- workspaces

  /** Replaces one workspace; nothing else changes. */
  function PutWorkspace(st: RemoteState, id: string, w: Workspace): (r: RemoteState)
    ensures r == st.(workspaces := r.workspaces)
    ensures r.workspaces.Keys == st.workspaces.Keys + {id} && r.workspaces[id] == w
    ensures forall x :: x in st.workspaces && x != id ==> r.workspaces[x] == st.workspaces[x]
  {
    st.(workspaces := st.workspaces[id := w])
  }

  /**
   * `create_workspace` (create or update): a new workspace has no content,
   * permissions or filters; an existing one only gets the new name and parent.
   */
  function CreateWorkspace(st: RemoteState, id: string, name: string, parent: Option<string>): (r: RemoteState)
    ensures r == st.(workspaces := r.workspaces)
    ensures r.workspaces.Keys == st.workspaces.Keys + {id}
    ensures forall x :: x in st.workspaces && x != id ==> r.workspaces[x] == st.workspaces[x]
    ensures id in st.workspaces ==> r.workspaces[id] == st.workspaces[id].(name := name, parent := parent)
    ensures id !in st.workspaces ==>
      r.workspaces[id] == Workspace(name, parent, Content(None, None), WorkspacePermissions([], []), [])
  {
    if id in st.workspaces then PutWorkspace(st, id, st.workspaces[id].(name := name, parent := parent))
    else PutWorkspace(st, id, Workspace(name, parent, Content(None, None), WorkspacePermissions([], []), []))
  }

  /** `import_workspace`: the workspace's content is replaced. */
  function ImportWorkspace(st: RemoteState, id: string, content: Content): (r: RemoteState)
    requires id in st.workspaces
    ensures r == st.(workspaces := r.workspaces) && r.workspaces.Keys == st.workspaces.Keys
    ensures forall x :: x in st.workspaces && x != id ==> r.workspaces[x] == st.workspaces[x]
    ensures r.workspaces[id] == st.workspaces[id].(content := content)
  {
    PutWorkspace(st, id, st.workspaces[id].(content := content))
  }

  /** `empty_workspace`: the workspace's content is replaced by the empty content. */
  function EmptyWorkspace(st: RemoteState, id: string): (r: RemoteState)
    requires id in st.workspaces
    ensures r == st.(workspaces := r.workspaces) && r.workspaces.Keys == st.workspaces.Keys
    ensures forall x :: x in st.workspaces && x != id ==> r.workspaces[x] == st.workspaces[x]
    ensures r.workspaces[id] == st.workspaces[id].(content := EmptyContent)
  {
    ImportWorkspace(st, id, EmptyContent)
  }

  /** `add_or_update_workspace_permissions`: the merged permission list is written back. */
  function AddOrUpdateWorkspacePermissions(st: RemoteState, userIds: seq<string>, groupIds: seq<string>,
                                           id: string, level: string): (r: RemoteState)
    requires id in st.workspaces
    ensures r == st.(workspaces := r.workspaces) && r.workspaces.Keys == st.workspaces.Keys
    ensures forall x :: x in st.workspaces && x != id ==> r.workspaces[x] == st.workspaces[x]
    ensures r.workspaces[id] == st.workspaces[id].(permissions := r.workspaces[id].permissions)
    ensures r.workspaces[id].permissions
         == MergeWorkspacePermissions(st.workspaces[id].permissions, userIds, groupIds, level)
  {
    var w := st.workspaces[id];
    PutWorkspace(st, id, w.(permissions := MergeWorkspacePermissions(w.permissions, userIds, groupIds, level)))
  }

  /** `remove_workspace_permissions`: an empty permission list is written back. */
  function RemoveWorkspacePermissions(st: RemoteState, id: string): (r: RemoteState)
    requires id in st.workspaces
    ensures r == st.(workspaces := r.workspaces) && r.workspaces.Keys == st.workspaces.Keys
    ensures forall x :: x in st.workspaces && x != id ==> r.workspaces[x] == st.workspaces[x]
    ensures r.workspaces[id] == st.workspaces[id].(permissions := StripWorkspacePermissions(st.workspaces[id].permissions))
  {
    var w := st.workspaces[id];
    PutWorkspace(st, id, w.(permissions := StripWorkspacePermissions(w.permissions)))
  }

  // ---------------------------------------------------------------- data sources

  /** `create_snowflake_datasource` (create or update). */
  function CreateDataSource(st: RemoteState, id: string, name: string, database: string, schema: string)
    : (r: RemoteState)
    ensures r == st.(dataSources := r.dataSources)
    ensures r.dataSources == st.dataSources[id := DataSource(name, database, schema)]
  {
    st.(dataSources := st.dataSources[id := DataSource(name, database, schema)])
  }

  /** The permissions a principal holds; one the platform has no record for holds none. */
  function PermissionsOf(m: map<string, PermissionAssignments>, id: string): PermissionAssignments
  {
    if id in m then m[id] else PermissionAssignments([], [])
  }

  /** The read-modify-write of `set_data_source_permissions`, principal after principal. */
  function GrantDataSource(m: map<string, PermissionAssignments>, ids: seq<string>, dataSourceId: string,
                           level: string): (r: map<string, PermissionAssignments>)
    ensures r.Keys == m.Keys + set x | x in ids
    decreases |ids|
  {
    if ids == [] then m
    else
      var n := |ids| - 1;
      var prev := GrantDataSource(m, ids[..n], dataSourceId, level);
      assert ids == ids[..n] + [ids[n]];
      prev[ids[n] := UpsertDataSourcePermission(PermissionsOf(prev, ids[n]), dataSourceId, level)]
  }

  /** For a single principal the loop is one upsert of that principal's entry. */
  lemma GrantDataSourceSingle(m: map<string, PermissionAssignments>, id: string, dataSourceId: string, level: string)
    ensures GrantDataSource(m, [id], dataSourceId, level)
         == m[id := UpsertDataSourcePermission(PermissionsOf(m, id), dataSourceId, level)]
  {
    assert [id][..0] == [];
  }

  /** One more principal of the loop: its permissions are read back as the loop left them, and upserted. */
  lemma GrantDataSourceNext(m: map<string, PermissionAssignments>, ids: seq<string>, dataSourceId: string,
                            level: string, i: nat)
    requires i < |ids|
    ensures var prev := GrantDataSource(m, ids[..i], dataSourceId, level);
      GrantDataSource(m, ids[..i + 1], dataSourceId, level)
        == prev[ids[i] := UpsertDataSourcePermission(PermissionsOf(prev, ids[i]), dataSourceId, level)]
  {
    assert ids[..i + 1][..i] == ids[..i];
  }

  /**
   * After the loop every listed principal holds exactly one upsert of what it held
   * before: a principal listed twice is upserted twice, which changes nothing.
   */
  lemma {:induction false} GrantDataSourceListed(m: map<string, PermissionAssignments>, ids: seq<string>,
                                                 dataSourceId: string, level: string, x: string)
    requires x in ids
    ensures GrantDataSource(m, ids, dataSourceId, level)[x]
         == UpsertDataSourcePermission(PermissionsOf(m, x), dataSourceId, level)
    decreases |ids|
  {
    var n := |ids| - 1;
    var pre := ids[..n];
    var y := ids[n];
    assert ids == pre + [y];
    var prev := GrantDataSource(m, pre, dataSourceId, level);
    if x == y {
      if x in pre {
        GrantDataSourceListed(m, pre, dataSourceId, level, x);
        UpsertDataSourcePermissionIdempotent(PermissionsOf(m, x), dataSourceId, level);
      } else {
        GrantDataSourceUnlisted(m, pre, dataSourceId, level, x);
      }
    } else {
      GrantDataSourceListed(m, pre, dataSourceId, level, x);
    }
  }

  /** Every principal not listed keeps what it held. */
  lemma {:induction false} GrantDataSourceUnlisted(m: map<string, PermissionAssignments>, ids: seq<string>,
                                                   dataSourceId: string, level: string, x: string)
    requires x !in ids
    ensures PermissionsOf(GrantDataSource(m, ids, dataSourceId, level), x) == PermissionsOf(m, x)
    decreases |ids|
  {
    if ids != [] {
      var n := |ids| - 1;
      assert ids == ids[..n] + [ids[n]];
      GrantDataSourceUnlisted(m, ids[..n], dataSourceId, level, x);
    }
  }

  /**
   * `set_data_source_permissions`: the users' loop, then the groups' loop. Every
   * listed principal ends with the upsert of what it held; every other principal
   * keeps what it held; nothing else on the platform changes.
   */
  function SetDataSourcePermissions(st: RemoteState, dataSourceId: string, userIds: seq<string>,
                                    groupIds: seq<string>, level: string): (r: RemoteState)
    ensures r == st.(userPermissions := r.userPermissions, groupPermissions := r.groupPermissions)
    ensures forall x :: x in userIds ==>
      PermissionsOf(r.userPermissions, x) == UpsertDataSourcePermission(PermissionsOf(st.userPermissions, x), dataSourceId, level)
    ensures forall x :: x !in userIds ==> PermissionsOf(r.userPermissions, x) == PermissionsOf(st.userPermissions, x)
    ensures forall x :: x in groupIds ==>
      PermissionsOf(r.groupPermissions, x) == UpsertDataSourcePermission(PermissionsOf(st.groupPermissions, x), dataSourceId, level)
    ensures forall x :: x !in groupIds ==> PermissionsOf(r.groupPermissions, x) == PermissionsOf(st.groupPermissions, x)
  {
    assert forall x :: x in userIds ==>
      PermissionsOf(GrantDataSource(st.userPermissions, userIds, dataSourceId, level), x)
        == UpsertDataSourcePermission(PermissionsOf(st.userPermissions, x), dataSourceId, level) by {
      forall x | x in userIds
        ensures PermissionsOf(GrantDataSource(st.userPermissions, userIds, dataSourceId, level), x)
             == UpsertDataSourcePermission(PermissionsOf(st.userPermissions, x), dataSourceId, level)
      {
        GrantDataSourceListed(st.userPermissions, userIds, dataSourceId, level, x);
      }
    }
    assert forall x :: x !in userIds ==>
      PermissionsOf(GrantDataSource(st.userPermissions, userIds, dataSourceId, level), x)
        == PermissionsOf(st.userPermissions, x) by {
      forall x | x !in userIds
        ensures PermissionsOf(GrantDataSource(st.userPermissions, userIds, dataSourceId, level), x)
             == PermissionsOf(st.userPermissions, x)
      {
        GrantDataSourceUnlisted(st.userPermissions, userIds, dataSourceId, level, x);
      }
    }
    assert forall x :: x in groupIds ==>
      PermissionsOf(GrantDataSource(st.groupPermissions, groupIds, dataSourceId, level), x)
        == UpsertDataSourcePermission(PermissionsOf(st.groupPermissions, x), dataSourceId, level) by {
      forall x | x in groupIds
        ensures PermissionsOf(GrantDataSource(st.groupPermissions, groupIds, dataSourceId, level), x)
             == UpsertDataSourcePermission(PermissionsOf(st.groupPermissions, x), dataSourceId, level)
      {
        GrantDataSourceListed(st.groupPermissions, groupIds, dataSourceId, level, x);
      }
    }
    assert forall x :: x !in groupIds ==>
      PermissionsOf(GrantDataSource(st.groupPermissions, groupIds, dataSourceId, level), x)
        == PermissionsOf(st.groupPermissions, x) by {
      forall x | x !in groupIds
        ensures PermissionsOf(GrantDataSource(st.groupPermissions, groupIds, dataSourceId, level), x)
             == PermissionsOf(st.groupPermissions, x)
      {
        GrantDataSourceUnlisted(st.groupPermissions, groupIds, dataSourceId, level, x);
      }
    }
    st.(userPermissions := GrantDataSource(st.userPermissions, userIds, dataSourceId, level),
        groupPermissions := GrantDataSource(st.groupPermissions, groupIds, dataSourceId, level))
  }

  // ---------------------------------------------------------------- logical data model

  /** The upper-cased names of the metadata's objects. */
  function UpperNames(objects: seq<SnowflakeObject>): seq<string>
  {
    seq(|objects|, i requires 0 <= i < |objects| => Upper(objects[i].name))
  }

  /**
   * The table filter of `generate_ldm_and_apply_to_workspace`: the scanned tables
   * whose upper-cased id is among the upper-cased object names, in scan order.
   */
  function FilterTables(tables: seq<PdmTable>, objects: seq<SnowflakeObject>): (r: seq<PdmTable>)
    ensures |r| <= |tables|
    ensures forall t :: t in r <==> t in tables && exists o :: o in objects && Upper(o.name) == Upper(t.id)
    decreases |tables|
  {
    if tables == [] then []
    else
      var rest := FilterTables(tables[1..], objects);
      assert forall j :: 0 <= j < |objects| ==> UpperNames(objects)[j] == Upper(objects[j].name);
      if Upper(tables[0].id) in UpperNames(objects) then
        ghost var i :| 0 <= i < |objects| && UpperNames(objects)[i] == Upper(tables[0].id);
        assert objects[i] in objects;
        [tables[0]] + rest
      else rest
  }

  /** The filter works table by table: it distributes over concatenation, so scan order is kept. */
  lemma {:induction false} FilterTablesAppend(a: seq<PdmTable>, b: seq<PdmTable>, objects: seq<SnowflakeObject>)
    ensures FilterTables(a + b, objects) == FilterTables(a, objects) + FilterTables(b, objects)
    decreases |a|
  {
    if a == [] {
      assert a + b == b;
    } else {
      assert (a + b)[1..] == a[1..] + b;
      FilterTablesAppend(a[1..], b, objects);
    }
  }

  /** What a scan of the data source finds: the tables and views of its database and schema. */
  function Scan(st: RemoteState, dataSourceId: string): seq<PdmTable>
    requires dataSourceId in st.dataSources
  {
    WarehouseTables(st.warehouse, st.dataSources[dataSourceId].database, st.dataSources[dataSourceId].schema)
  }

  /** The tables and views of one database schema; an unknown schema has none. */
  function WarehouseTables(warehouse: map<(string, string), seq<PdmTable>>, database: string, schema: string)
    : seq<PdmTable>
  {
    if (database, schema) in warehouse then warehouse[(database, schema)] else []
  }

  /**
   * `generate_ldm_and_apply_to_workspace`: the model generated from the filtered
   * scan replaces the workspace's model; its analytics are kept.
   */
  function GenerateLdm(st: RemoteState, dataSourceId: string, workspaceId: string, metadata: SnowflakeMetadata)
    : (r: RemoteState)
    requires dataSourceId in st.dataSources && workspaceId in st.workspaces
    ensures r == st.(workspaces := r.workspaces) && r.workspaces.Keys == st.workspaces.Keys
    ensures forall x :: x in st.workspaces && x != workspaceId ==> r.workspaces[x] == st.workspaces[x]
    ensures r.workspaces[workspaceId] == st.workspaces[workspaceId].(content := r.workspaces[workspaceId].content)
    ensures r.workspaces[workspaceId].content.analytics == st.workspaces[workspaceId].content.analytics
    ensures r.workspaces[workspaceId].content.ldm
         == Some(Generated(dataSourceId, FilterTables(Scan(st, dataSourceId), metadata.objects)))
  {
    var w := st.workspaces[workspaceId];
    var ldm := Generated(dataSourceId, FilterTables(Scan(st, dataSourceId), metadata.objects));
    PutWorkspace(st, workspaceId, w.(content := w.content.(ldm := Some(ldm))))
  }

  // ---------------------------------------------------------------- user-data filters

  /** The filters whose id is missing or not in `ids`, in their original order. */
  function KeepFilters(fs: seq<RemoteFilter>, ids: set<string>): (r: seq<RemoteFilter>)
    ensures |r| <= |fs|
    ensures forall f :: f in r <==> f in fs && (f.id.None? || f.id.value !in ids)
    decreases |fs|
  {
    if fs == [] then []
    else if fs[0].id.Some? && fs[0].id.value in ids then KeepFilters(fs[1..], ids)
    else [fs[0]] + KeepFilters(fs[1..], ids)
  }

  /** Deleting by one id set, then another, is deleting by their union. */
  lemma {:induction false} KeepFiltersTwice(fs: seq<RemoteFilter>, a: set<string>, b: set<string>)
    ensures KeepFilters(KeepFilters(fs, a), b) == KeepFilters(fs, a + b)
    decreases |fs|
  {
    if fs != [] {
      KeepFiltersTwice(fs[1..], a, b);
      if !(fs[0].id.Some? && fs[0].id.value in a) {
        assert ([fs[0]] + KeepFilters(fs[1..], a))[1..] == KeepFilters(fs[1..], a);
      }
    }
  }

  /** Deleting by no id at all keeps every filter. */
  lemma {:induction false} KeepFiltersNone(fs: seq<RemoteFilter>)
    ensures KeepFilters(fs, {}) == fs
    decreases |fs|
  {
    if fs != [] {
      KeepFiltersNone(fs[1..]);
      assert [fs[0]] + fs[1..] == fs;
    }
  }

  /** Deleting an id no filter carries changes nothing. */
  lemma {:induction false} KeepFiltersUnmatched(fs: seq<RemoteFilter>, x: string)
    requires forall f :: f in fs ==> f.id != Some(x)
    ensures KeepFilters(fs, {x}) == fs
    decreases |fs|
  {
    if fs != [] {
      KeepFiltersUnmatched(fs[1..], x);
      assert [fs[0]] + fs[1..] == fs;
    }
  }

  /** The ids the filters carry. */
  function FilterIds(fs: seq<RemoteFilter>): set<string>
  {
    set f | f in fs && f.id.Some? :: f.id.value
  }

  /** What deleting every listed filter leaves: exactly the filters without an id. */
  function IdlessFilters(fs: seq<RemoteFilter>): (r: seq<RemoteFilter>)
    ensures forall f :: f in r <==> f in fs && f.id.None?
  {
    KeepFilters(fs, FilterIds(fs))
  }

  function PutFilters(st: RemoteState, id: string, fs: seq<RemoteFilter>): (r: RemoteState)
    requires id in st.workspaces
    ensures r == st.(workspaces := r.workspaces) && r.workspaces.Keys == st.workspaces.Keys
    ensures forall x :: x in st.workspaces && x != id ==> r.workspaces[x] == st.workspaces[x]
    ensures r.workspaces[id] == st.workspaces[id].(filters := fs)
  {
    PutWorkspace(st, id, st.workspaces[id].(filters := fs))
  }

  /** `remove_user_data_filters`: every filter with an id is deleted, id-less ones stay. */
  function RemoveUserDataFilters(st: RemoteState, id: string): (r: RemoteState)
    requires id in st.workspaces
    ensures r == st.(workspaces := r.workspaces) && r.workspaces.Keys == st.workspaces.Keys
    ensures forall x :: x in st.workspaces && x != id ==> r.workspaces[x] == st.workspaces[x]
    ensures r.workspaces[id] == st.workspaces[id].(filters := r.workspaces[id].filters)
    ensures FilterIds(r.workspaces[id].filters) == {}
    ensures r.workspaces[id].filters == IdlessFilters(st.workspaces[id].filters)
  {
    PutFilters(st, id, IdlessFilters(st.workspaces[id].filters))
  }

  /**
   * One step of `remove_user_data_filters`' loop over the listed filters: deleting
   * the next listed filter's id (when it has one) extends the ids deleted so far.
   */
  lemma KeepNextListed(listed: seq<RemoteFilter>, i: nat)
    requires i < |listed|
    ensures listed[i].id.Some? ==>
      KeepFilters(KeepFilters(listed, FilterIds(listed[..i])), {listed[i].id.value})
        == KeepFilters(listed, FilterIds(listed[..i + 1]))
    ensures listed[i].id.None? ==> FilterIds(listed[..i + 1]) == FilterIds(listed[..i])
  {
    assert listed[..i + 1] == listed[..i] + [listed[i]];
    if listed[i].id.Some? {
      KeepFiltersTwice(listed, FilterIds(listed[..i]), {listed[i].id.value});
      assert FilterIds(listed[..i + 1]) == FilterIds(listed[..i]) + {listed[i].id.value};
    }
  }

  /** Writing a workspace's filters twice leaves the second list. */
  lemma PutFiltersTwice(st: RemoteState, id: string, a: seq<RemoteFilter>, b: seq<RemoteFilter>)
    requires id in st.workspaces
    ensures PutFilters(PutFilters(st, id, a), id, b) == PutFilters(st, id, b)
  {
    assert PutFilters(PutFilters(st, id, a), id, b).workspaces == PutFilters(st, id, b).workspaces;
  }

  /** A deletion by id on the platform: every filter carrying it goes. */
  function DeleteUserDataFilter(st: RemoteState, id: string, filterId: string): (r: RemoteState)
    requires id in st.workspaces
    ensures r == st.(workspaces := r.workspaces) && r.workspaces.Keys == st.workspaces.Keys
    ensures forall x :: x in st.workspaces && x != id ==> r.workspaces[x] == st.workspaces[x]
    ensures r.workspaces[id] == st.workspaces[id].(filters := r.workspaces[id].filters)
    ensures forall f :: f in r.workspaces[id].filters <==> f in st.workspaces[id].filters && f.id != Some(filterId)
  {
    PutFilters(st, id, KeepFilters(st.workspaces[id].filters, {filterId}))
  }

  /** `remove_user_data_filter_if_exists`: the deletion is issued only when a filter with that id exists. */
  function RemoveUserDataFilterIfExists(st: RemoteState, filterId: string, id: string): RemoteState
    requires id in st.workspaces
  {
    if exists f :: f in st.workspaces[id].filters && f.id == Some(filterId) then DeleteUserDataFilter(st, id, filterId)
    else st
  }

  /** Guarding the deletion by an existence check makes no difference to the outcome. */
  lemma RemoveIfExistsIsDelete(st: RemoteState, filterId: string, id: string)
    requires id in st.workspaces
    ensures RemoveUserDataFilterIfExists(st, filterId, id) == DeleteUserDataFilter(st, id, filterId)
  {
    var fs := st.workspaces[id].filters;
    if !exists f :: f in fs && f.id == Some(filterId) {
      KeepFiltersUnmatched(fs, filterId);
      assert PutFilters(st, id, fs).workspaces == st.workspaces;
    }
  }

  /** The MAQL condition of a user-data filter: `{label/<label>} <op> "<value>"`, the operator defaulting to `=`. */
  function Maql(labelId: string, operator: Option<string>, value: string): string
  {
    "{label/" + labelId + "} " + operator.GetOr("=") + " \"" + value + "\""
  }

  /** With the same operator, a MAQL condition determines its label and value (for labels without `}`). */
  lemma MaqlInjective(l1: string, l2: string, op: Option<string>, v1: string, v2: string)
    requires '}' !in l1 && '}' !in l2
    requires Maql(l1, op, v1) == Maql(l2, op, v2)
    ensures l1 == l2 && v1 == v2
  {
    var head := "{label/";
    var tail := "} " + op.GetOr("=") + " \"";
    assert Maql(l1, op, v1) == head + (l1 + (tail + (v1 + "\"")));
    assert Maql(l2, op, v2) == head + (l2 + (tail + (v2 + "\"")));
    PrefixCancel(head, l1 + (tail + (v1 + "\"")), l2 + (tail + (v2 + "\"")));
    SplitAtFirst(l1, tail + (v1 + "\""), l2, tail + (v2 + "\""), '}');
    PrefixCancel(tail, v1 + "\"", v2 + "\"");
    assert v1 == (v1 + "\"")[..|v1|];
  }

  lemma PrefixCancel(p: string, s: string, t: string)
    requires p + s == p + t
    ensures s == t
  {
    assert s == (p + s)[|p|..];
  }

  /** The position of the first `c` in `x`, or `|x|` when there is none. */
  function FirstIndex(x: string, c: char): nat
    decreases |x|
  {
    if x == [] || x[0] == c then 0 else 1 + FirstIndex(x[1..], c)
  }

  lemma {:induction false} FirstIndexAfter(a: string, s: string, c: char)
    requires c !in a && |s| > 0 && s[0] == c
    ensures FirstIndex(a + s, c) == |a|
    decreases |a|
  {
    if a == [] {
      assert a + s == s;
    } else {
      assert (a + s)[1..] == a[1..] + s;
      FirstIndexAfter(a[1..], s, c);
    }
  }

  /** Two strings that both continue with `c` right after a `c`-free part split at the same place. */
  lemma SplitAtFirst(a: string, s: string, b: string, t: string, c: char)
    requires c !in a && c !in b && |s| > 0 && |t| > 0 && s[0] == c && t[0] == c && a + s == b + t
    ensures a == b && s == t
  {
    FirstIndexAfter(a, s, c);
    FirstIndexAfter(b, t, c);
    assert a == (a + s)[..|a|];
    assert b == (b + t)[..|b|];
    PrefixCancel(a, s, t);
  }

  /** The filter `add_user_data_filter` stores for a descriptor filter whose user maps to `userId`. */
  function FilterFor(udf: UserDataFilter, userId: string): RemoteFilter
  {
    RemoteFilter(Some(udf.id), Maql(udf.labelId, udf.operator, udf.value), udf.title, userId)
  }

  /** Create or update by id: a filter with the same id is replaced. */
  function UpsertFilter(fs: seq<RemoteFilter>, f: RemoteFilter): (r: seq<RemoteFilter>)
    requires f.id.Some?
    ensures f in r && forall g :: g in r && g.id == f.id ==> g == f
    ensures forall g :: g in r && g.id != f.id <==> g in fs && g.id != f.id
  {
    KeepFilters(fs, {f.id.value}) + [f]
  }

  /** Upserting a filter adds its id to the ids present and removes none. */
  lemma UpsertFilterIds(fs: seq<RemoteFilter>, f: RemoteFilter)
    requires f.id.Some?
    ensures FilterIds(UpsertFilter(fs, f)) == FilterIds(fs) + {f.id.value}
  {
    var r := UpsertFilter(fs, f);
    forall x | x in FilterIds(fs) + {f.id.value}
      ensures x in FilterIds(r)
    {
      if x != f.id.value {
        var g :| g in fs && g.id == Some(x);
        assert g in r;
      }
    }
  }

  function UnmappedFilterUserMessage(user: string): string
  {
    "Unable to map User Data Filter user " + user + " to a GoodData user."
  }

  /**
   * `add_user_data_filter`, given the user directory `map_users` consults: an
   * unmapped user raises `ValueError` before anything is written, a mapped one gets
   * the filter stored under its id, replacing any filter with the same id: it is
   * then the only filter with that id, and the filters with other ids are as before.
   */
  function AddUserDataFilter(st: RemoteState, udf: UserDataFilter, id: string, directory: map<string, string>)
    : (r: Result<RemoteState, PyException>)
    requires id in st.workspaces
    ensures r.Failure? <==> udf.user !in directory
    ensures r.Failure? ==> r.error == ValueError(UnmappedFilterUserMessage(udf.user))
    ensures r.Success? ==>
      && r.value == st.(workspaces := r.value.workspaces) && r.value.workspaces.Keys == st.workspaces.Keys
      && (forall x :: x in st.workspaces && x != id ==> r.value.workspaces[x] == st.workspaces[x])
      && r.value.workspaces[id] == st.workspaces[id].(filters := r.value.workspaces[id].filters)
      && (forall g :: g in r.value.workspaces[id].filters && g.id == Some(udf.id) <==> g == FilterFor(udf, directory[udf.user]))
      && (forall g :: g in r.value.workspaces[id].filters && g.id != Some(udf.id) <==>
                      g in st.workspaces[id].filters && g.id != Some(udf.id))
      && FilterIds(r.value.workspaces[id].filters) == FilterIds(st.workspaces[id].filters) + {udf.id}
  {
    if udf.user !in directory then Failure(ValueError(UnmappedFilterUserMessage(udf.user)))
    else
      var f := FilterFor(udf, directory[udf.user]);
      UpsertFilterIds(st.workspaces[id].filters, f);
      Success(PutFilters(st, id, UpsertFilter(st.workspaces[id].filters, f)))
  }
}
