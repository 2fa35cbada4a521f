/**
 * The GoodData client: a wrapper around the platform's API that the service calls.
 * The platform is the object's state (its workspaces, data sources, principals'
 * permissions, users and groups, and the warehouse it scans); every method reads
 * or writes it the way the corresponding API calls do, and is proved against the
 * pure transition of the same name in `Remote`.
 */
module Client {
  import opened Wrappers
  import opened Snowflake
  import opened Descriptor
  import opened Permissions
  import opened Identity
  import opened Remote

  /**
   * `map_users`/`map_groups`, second loop: every requested reference is looked up
   * in the table and recorded in the result dictionary. Storing a reference that is
   * already a key stores the same value under it again, which changes neither the
   * entry nor its place.
   */
  method ResolveReferences(table: map<string, string>, refs: seq<string>) returns (mapped: seq<Resolution>)
    ensures mapped == Resolve(table, refs)
  {
    mapped := [];
    for i := 0 to |refs|
      invariant mapped == Resolve(table, refs[..i])
    {
      var ref := refs[i];
      var id := Lookup(table, ref);
      assert refs[..i + 1][..i] == refs[..i];
      if ref !in References(mapped) {
        mapped := mapped + [Resolution(ref, id)];
      }
    }
    assert refs[..|refs|] == refs;
  }

  /**
   * The loop `set_data_source_permissions` runs for its users and again for its
   * groups: each principal's permissions are read, the entries for the data source
   * dropped, the new level appended, and the result written back.
   */
  method GrantEach(permissions: map<string, PermissionAssignments>, ids: seq<string>, dataSourceId: string, level: string)
    returns (updated: map<string, PermissionAssignments>)
    ensures updated == GrantDataSource(permissions, ids, dataSourceId, level)
  {
    updated := permissions;
    for i := 0 to |ids|
      invariant updated == GrantDataSource(permissions, ids[..i], dataSourceId, level)
    {
      GrantDataSourceNext(permissions, ids, dataSourceId, level, i);
      var id := ids[i];
      var current := PermissionsOf(updated, id);
      updated := updated[id := UpsertDataSourcePermission(current, dataSourceId, level)];
    }
    assert ids[..|ids|] == ids;
  }

  class GoodDataClient {
    /** The host as configured (`get_host` returns it untouched). */
    const host: string

    var workspaces: map<string, Workspace>
    var dataSources: map<string, DataSource>
    var userPermissions: map<string, PermissionAssignments>
    var groupPermissions: map<string, PermissionAssignments>
    var users: seq<CatalogUser>
    var groups: seq<CatalogUserGroup>
    var warehouse: map<(string, string), seq<PdmTable>>

    /** The platform as the pure transitions see it. */
    function State(): RemoteState
      reads this
    {
      RemoteState(workspaces, dataSources, userPermissions, groupPermissions, users, groups, warehouse)
    }

    /** A client of the platform at `host`, whose state is `platform`. */
    constructor(host: string, platform: RemoteState)
      ensures this.host == host && State() == platform
    {
      this.host := host;
      workspaces := platform.workspaces;
      dataSources := platform.dataSources;
      userPermissions := platform.userPermissions;
      groupPermissions := platform.groupPermissions;
      users := platform.users;
      groups := platform.groups;
      warehouse := platform.warehouse;
    }

    /** `get_host`. */
    method GetHost() returns (h: string)
      ensures h == host
    {
      h := host;
    }

    /** `create_snowflake_datasource`: create or update, then read the data source back. */
    method CreateSnowflakeDatasource(id: string, name: string, database: string, schema: string)
      returns (ds: DataSource)
      modifies this
      ensures State() == CreateDataSource(old(State()), id, name, database, schema)
      ensures id in dataSources && ds == dataSources[id]
    {
      dataSources := dataSources[id := DataSource(name, database, schema)];
      ds := dataSources[id];
    }

    /**
     * `generate_ldm_and_apply_to_workspace`: scan the data source, keep the tables
     * of the component's objects, and put the model generated from them in place of
     * the workspace's model (the current model is read and discarded).
     */
    method GenerateLdmAndApplyToWorkspace(dataSourceId: string, workspaceId: string, metadata: SnowflakeMetadata)
      requires dataSourceId in dataSources && workspaceId in workspaces
      modifies this
      ensures State() == GenerateLdm(old(State()), dataSourceId, workspaceId, metadata)
    {
      var source := dataSources[dataSourceId];
      var pdm := WarehouseTables(warehouse, source.database, source.schema);
      var filteredTables := FilterTables(pdm, metadata.objects);
      var w := workspaces[workspaceId];
      workspaces := workspaces[workspaceId := w.(content := w.content.(ldm := Some(Generated(dataSourceId, filteredTables))))];
    }

    /** `set_data_source_permissions`: the users' loop, then the groups' loop. */
    method SetDataSourcePermissions(dataSourceId: string, userIds: seq<string>, groupIds: seq<string>, level: string)
      modifies this
      ensures State() == Remote.SetDataSourcePermissions(old(State()), dataSourceId, userIds, groupIds, level)
    {
      userPermissions := GrantEach(userPermissions, userIds, dataSourceId, level);
      groupPermissions := GrantEach(groupPermissions, groupIds, dataSourceId, level);
    }

    /** `workspace_exists`. */
    method WorkspaceExists(id: string) returns (b: bool)
      ensures b <==> id in State().workspaces
    {
      b := id in workspaces;
    }

    /** `create_workspace`: create or update, then read the workspace back. */
    method CreateWorkspace(id: string, name: string, parent: Option<string>) returns (w: Workspace)
      modifies this
      ensures State() == Remote.CreateWorkspace(old(State()), id, name, parent)
      ensures id in workspaces && w == workspaces[id]
    {
      if id in workspaces {
        workspaces := workspaces[id := workspaces[id].(name := name, parent := parent)];
      } else {
        workspaces := workspaces[id := Workspace(name, parent, Content(None, None), WorkspacePermissions([], []), [])];
      }
      w := workspaces[id];
    }

    /** `export_workspace`: the workspace's declarative content. */
    method ExportWorkspace(id: string) returns (c: Content)
      requires id in workspaces
      ensures c == State().workspaces[id].content
    {
      c := workspaces[id].content;
    }

    /** `import_workspace`. */
    method ImportWorkspace(id: string, content: Content)
      requires id in workspaces
      modifies this
      ensures State() == Remote.ImportWorkspace(old(State()), id, content)
    {
      workspaces := workspaces[id := workspaces[id].(content := content)];
    }

    /** `empty_workspace`. */
    method EmptyWorkspace(id: string)
      requires id in workspaces
      modifies this
      ensures State() == Remote.EmptyWorkspace(old(State()), id)
    {
      ImportWorkspace(id, EmptyContent);
    }

    /** `add_or_update_workspace_permissions`: read the permissions, merge, write back. */
    method AddOrUpdateWorkspacePermissions(userIds: seq<string>, groupIds: seq<string>, workspaceId: string, level: string)
      requires workspaceId in workspaces
      modifies this
      ensures State() == Remote.AddOrUpdateWorkspacePermissions(old(State()), userIds, groupIds, workspaceId, level)
    {
      var existing := workspaces[workspaceId].permissions;
      var merged := MergeWorkspacePermissions(existing, userIds, groupIds, level);
      workspaces := workspaces[workspaceId := workspaces[workspaceId].(permissions := merged)];
    }

    /** `remove_workspace_permissions`: read the permissions, write back an empty list. */
    method RemoveWorkspacePermissions(workspaceId: string)
      requires workspaceId in workspaces
      modifies this
      ensures State() == Remote.RemoveWorkspacePermissions(old(State()), workspaceId)
    {
      var existing := workspaces[workspaceId].permissions;
      workspaces := workspaces[workspaceId := workspaces[workspaceId].(permissions := StripWorkspacePermissions(existing))];
    }

    /** The platform's deletion of a user-data filter by id. */
    method DeleteUserDataFilter(workspaceId: string, filterId: string)
      requires workspaceId in workspaces
      modifies this
      ensures State() == Remote.DeleteUserDataFilter(old(State()), workspaceId, filterId)
    {
      workspaces := workspaces[workspaceId := workspaces[workspaceId].(filters := KeepFilters(workspaces[workspaceId].filters, {filterId}))];
    }

    /**
     * `add_user_data_filter`: map the filter's user; an unmapped user raises
     * `ValueError` and nothing is written, a mapped one gets the filter created or
     * updated under its id.
     */
    method AddUserDataFilter(udf: UserDataFilter, workspaceId: string) returns (r: Result<RemoteFilter, PyException>)
      requires workspaceId in workspaces
      modifies this
      ensures var expected := Remote.AddUserDataFilter(old(State()), udf, workspaceId, UserTable(old(users)));
        && (r.Failure? <==> expected.Failure?)
        && (expected.Failure? ==> r.error == expected.error && State() == old(State()))
        && (expected.Success? ==>
              State() == expected.value && r.value == FilterFor(udf, UserTable(old(users))[udf.user]))
    {
      var mapped := MapUsers([udf.user]);
      var gooddataUser := Get(mapped, udf.user);
      GetResolve(UserTable(users), [udf.user], udf.user);
      if gooddataUser.None? {
        return Failure(ValueError(UnmappedFilterUserMessage(udf.user)));
      }
      var f := FilterFor(udf, gooddataUser.value);
      workspaces := workspaces[workspaceId := workspaces[workspaceId].(filters := UpsertFilter(workspaces[workspaceId].filters, f))];
      r := Success(f);
    }

    /** `remove_user_data_filter_if_exists`: delete only when a listed filter carries the id. */
    method RemoveUserDataFilterIfExists(filterId: string, workspaceId: string)
      requires workspaceId in workspaces
      modifies this
      ensures State() == Remote.RemoveUserDataFilterIfExists(old(State()), filterId, workspaceId)
      ensures State() == Remote.DeleteUserDataFilter(old(State()), workspaceId, filterId)
    {
      RemoveIfExistsIsDelete(State(), filterId, workspaceId);
      var listed := workspaces[workspaceId].filters;
      if exists f :: f in listed && f.id == Some(filterId) {
        DeleteUserDataFilter(workspaceId, filterId);
      }
    }

    /**
     * `remove_user_data_filters`: list the workspace's filters once, then delete
     * each listed filter that has an id; id-less filters are skipped.
     */
    method RemoveUserDataFilters(workspaceId: string)
      requires workspaceId in workspaces
      modifies this
      ensures State() == Remote.RemoveUserDataFilters(old(State()), workspaceId)
    {
      var listed := workspaces[workspaceId].filters;
      ghost var initial := State();
      KeepFiltersNone(listed);
      assert FilterIds(listed[..0]) == {};
      assert PutFilters(initial, workspaceId, KeepFilters(listed, FilterIds(listed[..0]))) == initial;
      for i := 0 to |listed|
        invariant workspaceId in workspaces
        invariant State() == PutFilters(initial, workspaceId, KeepFilters(listed, FilterIds(listed[..i])))
      {
        KeepNextListed(listed, i);
        var udf := listed[i];
        if udf.id.Some? {
          PutFiltersTwice(initial, workspaceId, KeepFilters(listed, FilterIds(listed[..i])),
                          KeepFilters(listed, FilterIds(listed[..i + 1])));
          DeleteUserDataFilter(workspaceId, udf.id.value);
        }
      }
      assert listed[..|listed|] == listed;
    }

    /** `map_users`: the user table, then each reference resolved through it. */
    method MapUsers(refs: seq<string>) returns (mapped: seq<Resolution>)
      ensures mapped == Resolve(UserTable(State().users), refs)
    {
      var catalogUsers := users;
      var entries := UserEntries(catalogUsers);
      var table := map[];
      for i := 0 to |catalogUsers|
        invariant table == IndexTable(entries[..i])
      {
        var catalogUser := catalogUsers[i];
        assert entries[..i + 1][..i] == entries[..i];
        if catalogUser.email.Some? {
          table := table[UserKey(catalogUser.email.value) := catalogUser.id];
        }
      }
      assert entries[..|catalogUsers|] == entries;
      mapped := ResolveReferences(table, refs);
    }

    /** `map_groups`: the group table, then each reference resolved through it. */
    method MapGroups(refs: seq<string>) returns (mapped: seq<Resolution>)
      ensures mapped == Resolve(GroupTable(State().groups), refs)
    {
      var catalogGroups := groups;
      var entries := GroupEntries(catalogGroups);
      var table := map[];
      for i := 0 to |catalogGroups|
        invariant table == IndexTable(entries[..i])
      {
        var catalogGroup := catalogGroups[i];
        assert entries[..i + 1][..i] == entries[..i];
        if catalogGroup.name.Some? {
          table := table[GroupKey(catalogGroup.name.value) := catalogGroup.id];
        }
      }
      assert entries[..|catalogGroups|] == entries;
      mapped := ResolveReferences(table, refs);
    }
  }
}
