/**
 * What each lifecycle operation of the GoodData specific provisioner does to the
 * platform and answers, as pure functions of the platform state: provision,
 * unprovision, update-ACL and reverse provisioning, with the owner and dev-group
 * mapping and the data-source/LDM step they use. The service class in
 * `service.dfy` is proved against these; the lemmas state what the operations
 * promise.
 */
module Lifecycle {
  import opened Wrappers
  import opened Text
  import opened Snowflake
  import opened Descriptor
  import opened Permissions
  import opened Identity
  import opened Naming
  import opened Remote

  datatype Status = COMPLETED | FAILED

  /** The `link` entry of a provisioning result's public info. */
  datatype Link = Link(value: string, href: string)

  datatype Response =
    | Provisioning(status: Status, result: string, link: Option<Link>)               // `ProvisioningStatus`
    | ReverseProvisioned(status: Status, result: string, updates: seq<(string, Content)>)  // `ReverseProvisioningStatus`
    | Invalid(errors: seq<string>)                                                    // `ValidationError`
    | RequestInvalid(errors: seq<string>, userMessage: string, problems: seq<string>, solutions: seq<string>)
    | Raised(exception: PyException)                                                  // escapes the service

  const SpecificSectionError := "Unable to access specific section of component."
  const ProvisionMappingError :=
    "Unable to map DP owner and/or developer group to GoodData ids. Ensure they are present in GoodData and try again."
  const AclMappingError := "Unable to map DP owner and/or developer group to GoodData ids."
  const LayoutKey := "spec.mesh.specific.workspaceLayout"

  /** `_get_url`: the host as configured, then the workspace's dashboard path. */
  function Url(host: string, id: string): string
  {
    host + "/dashboards/#/workspace/" + id + "/"
  }

  /** Different workspaces get different links. */
  lemma UrlInjective(host: string, a: string, b: string)
    requires Url(host, a) == Url(host, b)
    ensures a == b
  {
    var p := host + "/dashboards/#/workspace/";
    assert Url(host, a) == p + (a + "/") && Url(host, b) == p + (b + "/");
    assert a + "/" == Url(host, a)[|p|..] == Url(host, b)[|p|..] == b + "/";
    assert a == (a + "/")[..|a|] && b == (b + "/")[..|b|];
  }

  function OwnerMessage(owner: string): string { "Unable to map DP owner \"" + owner + "\" to a GoodData user." }
  function DevGroupMessage(group: string): string { "Unable to map DP dev group \"" + group + "\" to a GoodData group." }

  /**
   * `_map_dp_owner_dev_group`: the owner through the user directory, then the dev
   * group through the group directory; the owner's failure skips the group lookup.
   */
  function MapOwnerDevGroup(st: RemoteState, dp: DataProduct): (r: Result<(string, string), seq<string>>)
    ensures r.Success? <==> dp.dataProductOwner in UserTable(st.users) && dp.devGroup in GroupTable(st.groups)
    ensures r.Success? ==> r.value == (UserTable(st.users)[dp.dataProductOwner], GroupTable(st.groups)[dp.devGroup])
    ensures dp.dataProductOwner !in UserTable(st.users) ==> r == Failure([OwnerMessage(dp.dataProductOwner)])
    ensures dp.dataProductOwner in UserTable(st.users) && dp.devGroup !in GroupTable(st.groups) ==>
      r == Failure([DevGroupMessage(dp.devGroup)])
  {
    if dp.dataProductOwner !in UserTable(st.users) then Failure([OwnerMessage(dp.dataProductOwner)])
    else if dp.devGroup !in GroupTable(st.groups) then Failure([DevGroupMessage(dp.devGroup)])
    else Success((UserTable(st.users)[dp.dataProductOwner], GroupTable(st.groups)[dp.devGroup]))
  }

  // ---------------------------------------------------------------- the data-source and LDM step

  /** The outcome of `_provision_data_source_and_ldm`. */
  datatype StepOutcome = StepDone | StepRejected(errors: seq<string>) | StepRaised(exception: PyException)

  /** The layout already carries a logical model: one with a dataset or a date instance. */
  predicate LdmExists(layout: WorkspaceLayout)
  {
    layout.ldm.Some? && (|layout.ldm.value.datasets| > 0 || |layout.ldm.value.dateInstances| > 0)
  }

  /**
   * `set_data_source_permissions` with USE for the owner and the dev group: only
   * their entries in the permission maps change, every other user and group keeps
   * its permissions.
   */
  function GrantUse(st: RemoteState, dataSourceId: string, ownerId: string, devId: string): (r: RemoteState)
    ensures r == st.(userPermissions := r.userPermissions, groupPermissions := r.groupPermissions)
    ensures PermissionsOf(r.userPermissions, ownerId)
         == UpsertDataSourcePermission(PermissionsOf(st.userPermissions, ownerId), dataSourceId, "USE")
    ensures PermissionsOf(r.groupPermissions, devId)
         == UpsertDataSourcePermission(PermissionsOf(st.groupPermissions, devId), dataSourceId, "USE")
    ensures r.userPermissions
         == st.userPermissions[ownerId := UpsertDataSourcePermission(PermissionsOf(st.userPermissions, ownerId), dataSourceId, "USE")]
    ensures r.groupPermissions
         == st.groupPermissions[devId := UpsertDataSourcePermission(PermissionsOf(st.groupPermissions, devId), dataSourceId, "USE")]
  {
    GrantDataSourceSingle(st.userPermissions, ownerId, dataSourceId, "USE");
    GrantDataSourceSingle(st.groupPermissions, devId, dataSourceId, "USE");
    SetDataSourcePermissions(st, dataSourceId, [ownerId], [devId], "USE")
  }

  /** The model is generated from the scan unless the layout already has one. */
  function GenerateUnlessPresent(st: RemoteState, dataSourceId: string, md: SnowflakeMetadata,
                                 workspaceId: string, layout: WorkspaceLayout): (r: RemoteState)
    requires dataSourceId in st.dataSources && workspaceId in st.workspaces
    ensures r == st.(workspaces := r.workspaces) && r.workspaces.Keys == st.workspaces.Keys
    ensures forall x :: x in st.workspaces && x != workspaceId ==> r.workspaces[x] == st.workspaces[x]
    ensures LdmExists(layout) ==> r.workspaces[workspaceId] == st.workspaces[workspaceId]
    ensures !LdmExists(layout) ==>
      var w := st.workspaces[workspaceId];
      r.workspaces[workspaceId]
        == w.(content := w.content.(ldm := Some(Generated(dataSourceId, FilterTables(Scan(st, dataSourceId), md.objects)))))
  {
    if LdmExists(layout) then st else GenerateLdm(st, dataSourceId, workspaceId, md)
  }

  /**
   * The platform side of the step once the dependency, its metadata and the
   * data-source name are known: the data source is created with the Snowflake
   * database and schema, the owner and dev group get USE on it, and the workspace's
   * model is generated from the scan unless the layout already has one.
   */
  function CreateGrantGenerate(st: RemoteState, dataSourceId: string, dataSourceName: string, md: SnowflakeMetadata,
                               workspaceId: string, layout: WorkspaceLayout, ownerId: string, devId: string)
    : (r: RemoteState)
    requires workspaceId in st.workspaces
    ensures r.warehouse == st.warehouse && r.users == st.users && r.groups == st.groups
    ensures r.dataSources == st.dataSources[dataSourceId := DataSource(dataSourceName, md.database, md.schema)]
    ensures PermissionsOf(r.userPermissions, ownerId)
         == UpsertDataSourcePermission(PermissionsOf(st.userPermissions, ownerId), dataSourceId, "USE")
    ensures PermissionsOf(r.groupPermissions, devId)
         == UpsertDataSourcePermission(PermissionsOf(st.groupPermissions, devId), dataSourceId, "USE")
    ensures r.userPermissions
         == st.userPermissions[ownerId := UpsertDataSourcePermission(PermissionsOf(st.userPermissions, ownerId), dataSourceId, "USE")]
    ensures r.groupPermissions
         == st.groupPermissions[devId := UpsertDataSourcePermission(PermissionsOf(st.groupPermissions, devId), dataSourceId, "USE")]
    ensures r.workspaces.Keys == st.workspaces.Keys
    ensures forall x :: x in st.workspaces && x != workspaceId ==> r.workspaces[x] == st.workspaces[x]
    ensures LdmExists(layout) ==> r.workspaces[workspaceId] == st.workspaces[workspaceId]
    ensures !LdmExists(layout) ==>
      var w := st.workspaces[workspaceId];
      r.workspaces[workspaceId]
        == w.(content := w.content.(ldm := Some(Generated(dataSourceId,
                FilterTables(WarehouseTables(st.warehouse, md.database, md.schema), md.objects)))))
  {
    var created := CreateDataSource(st, dataSourceId, dataSourceName, md.database, md.schema);
    var granted := GrantUse(created, dataSourceId, ownerId, devId);
    assert granted.workspaces == st.workspaces && granted.warehouse == st.warehouse;
    assert granted.dataSources[dataSourceId] == DataSource(dataSourceName, md.database, md.schema);
    assert Scan(granted, dataSourceId) == WarehouseTables(st.warehouse, md.database, md.schema);
    var r := GenerateUnlessPresent(granted, dataSourceId, md, workspaceId, layout);
    assert r.userPermissions == granted.userPermissions && r.groupPermissions == granted.groupPermissions;
    assert created.userPermissions == st.userPermissions && created.groupPermissions == st.groupPermissions;
    r
  }

  /**
   * `_provision_data_source_and_ldm`: extract the Snowflake dependency and its
   * metadata, then create, grant and generate; the validation errors of the
   * extraction come back as `StepRejected`, exceptions as `StepRaised`.
   */
  function DataSourceStep(st: RemoteState, c: Component, workspaceId: string, layout: WorkspaceLayout,
                          dp: DataProduct, ownerId: string, devId: string): (r: (RemoteState, StepOutcome))
    requires workspaceId in st.workspaces
    ensures r.0.workspaces.Keys == st.workspaces.Keys && r.0.users == st.users
    ensures !r.1.StepDone? ==> r.0 == st
  {
    match ExtractSnowflakeDependency(c, dp)
    case Rejected(errors) => (st, StepRejected(["Unable to extract Snowflake dependencies."] + errors))
    case ExtractRaised(e) => (st, StepRaised(e))
    case Extracted(None) => (st, StepRaised(AttributeError))
    case Extracted(Some(sf)) =>
      match sf.GetSnowflakeMetadata()
      case Failure(errors) => (st, StepRejected(["Unable to extract Snowflake metadata."] + errors))
      case Success(md) =>
        match DataSourceName(c, sf.name)
        case Failure(e) => (st, StepRaised(e))
        case Success(dataSourceName) =>
          (CreateGrantGenerate(st, DataSourceId(c.id, sf.id), dataSourceName, md, workspaceId, layout, ownerId, devId), StepDone)
  }

  /**
   * The step completes exactly when the single dependency resolves to a typed
   * component whose metadata can be read and whose data-source name can be built;
   * the data source is then the one named after the component and the dependency.
   */
  lemma DataSourceStepDone(st: RemoteState, c: Component, workspaceId: string, layout: WorkspaceLayout,
                           dp: DataProduct, ownerId: string, devId: string)
    requires workspaceId in st.workspaces
    ensures var ex := ExtractSnowflakeDependency(c, dp);
      DataSourceStep(st, c, workspaceId, layout, dp, ownerId, devId).1.StepDone? <==>
        ex.Extracted? && ex.typed.Some? && ex.typed.value.GetSnowflakeMetadata().Success?
        && DataSourceName(c, ex.typed.value.name).Success?
    ensures var ex := ExtractSnowflakeDependency(c, dp);
      DataSourceStep(st, c, workspaceId, layout, dp, ownerId, devId).1.StepDone? ==>
        var sf := ex.typed.value;
        DataSourceStep(st, c, workspaceId, layout, dp, ownerId, devId).0
          == CreateGrantGenerate(st, DataSourceId(c.id, sf.id), DataSourceName(c, sf.name).value,
                                 sf.GetSnowflakeMetadata().value, workspaceId, layout, ownerId, devId)
  {
  }

  /** Python's truth value of `_find_snowflake_dependencies`' result: an error object is true, a list when non-empty. */
  predicate HasSnowflakeDependency(found: Result<seq<Component>, seq<string>>)
  {
    found.Failure? || |found.value| > 0
  }

  // ---------------------------------------------------------------- provision

  /** The workspace of the specific section, created (without content) when the platform lacks it. */
  function EnsureWorkspace(st: RemoteState, spec: GoodDataSpecific): (r: RemoteState)
    ensures spec.workspaceId in r.workspaces
    ensures spec.workspaceId in st.workspaces ==> r == st
    ensures spec.workspaceId !in st.workspaces ==>
      r == st.(workspaces := st.workspaces[spec.workspaceId :=
                 Workspace(spec.workspaceName, spec.parentWorkspaceId, Content(None, None), WorkspacePermissions([], []), [])])
  {
    if spec.workspaceId in st.workspaces then st
    else CreateWorkspace(st, spec.workspaceId, spec.workspaceName, spec.parentWorkspaceId)
  }

  /** The content, data-source and LDM part of provisioning, done only for a workspace without a parent. */
  function Populate(st: RemoteState, c: Component, spec: GoodDataSpecific, dp: DataProduct,
                    ownerId: string, devId: string): (r: (RemoteState, Option<PyException>))
    requires spec.workspaceId in st.workspaces
    ensures r.0.workspaces.Keys == st.workspaces.Keys && r.0.users == st.users
    ensures spec.parentWorkspaceId.Some? ==> r == (st, None)
  {
    if spec.parentWorkspaceId.Some? then (st, None)
    else
      var imported := ImportWorkspace(st, spec.workspaceId, ContentOf(spec.workspaceLayout));
      if HasSnowflakeDependency(FindSnowflakeDependencies(c, dp)) then
        var step := DataSourceStep(imported, c, spec.workspaceId, spec.workspaceLayout, dp, ownerId, devId);
        (step.0, if step.1.StepRaised? then Some(step.1.exception) else None)
      else (imported, None)
  }

  /** One iteration of the filter loop: `add_user_data_filter`, its `ValueError` caught as a value. */
  function AddOne(st: RemoteState, udf: UserDataFilter, workspaceId: string, directory: map<string, string>)
    : (r: (RemoteState, Option<PyException>))
    requires workspaceId in st.workspaces
    ensures r.0 == st.(workspaces := r.0.workspaces) && r.0.workspaces.Keys == st.workspaces.Keys
    ensures forall x :: x in st.workspaces && x != workspaceId ==> r.0.workspaces[x] == st.workspaces[x]
    ensures r.0.workspaces[workspaceId] == st.workspaces[workspaceId].(filters := r.0.workspaces[workspaceId].filters)
    ensures r.1.Some? <==> udf.user !in directory
    ensures r.1.Some? ==> r.0 == st && r.1.value == ValueError(UnmappedFilterUserMessage(udf.user))
    ensures r.1.None? ==>
      FilterIds(r.0.workspaces[workspaceId].filters) == FilterIds(st.workspaces[workspaceId].filters) + {udf.id}
    ensures r.1.None? ==>
      && (forall g :: g in r.0.workspaces[workspaceId].filters && g.id == Some(udf.id) <==> g == FilterFor(udf, directory[udf.user]))
      && (forall g: RemoteFilter :: g.id != Some(udf.id) ==>
            (g in r.0.workspaces[workspaceId].filters <==> g in st.workspaces[workspaceId].filters))
  {
    match AddUserDataFilter(st, udf, workspaceId, directory)
    case Failure(e) => (st, Some(e))
    case Success(next) => (next, None)
  }

  /** The exception the filter loop stops with: the first declared filter whose user the directory lacks. */
  function FirstUnmapped(fs: seq<UserDataFilter>, directory: map<string, string>): (e: Option<PyException>)
    decreases |fs|
  {
    if fs == [] then None
    else
      var n := |fs| - 1;
      var prev := FirstUnmapped(fs[..n], directory);
      if prev.Some? then prev
      else if fs[n].user !in directory then Some(ValueError(UnmappedFilterUserMessage(fs[n].user)))
      else None
  }

  /** The loop stops exactly when some declared filter's user is unknown. */
  lemma {:induction false} FirstUnmappedIff(fs: seq<UserDataFilter>, directory: map<string, string>)
    ensures FirstUnmapped(fs, directory).Some? <==> exists i :: 0 <= i < |fs| && fs[i].user !in directory
    decreases |fs|
  {
    if fs != [] {
      var n := |fs| - 1;
      var p := fs[..n];
      FirstUnmappedIff(p, directory);
      assert forall j :: 0 <= j < n ==> p[j] == fs[j];
      if FirstUnmapped(p, directory).Some? {
        var i :| 0 <= i < n && p[i].user !in directory;
        assert fs[i].user !in directory;
      }
    }
  }

  /** When the loop stops, it stops at the first declared filter whose user is unknown. */
  lemma {:induction false} FirstUnmappedSpec(fs: seq<UserDataFilter>, directory: map<string, string>)
    ensures FirstUnmapped(fs, directory).Some? ==>
      exists i :: 0 <= i < |fs| && fs[i].user !in directory
        && (forall j :: 0 <= j < i ==> fs[j].user in directory)
        && FirstUnmapped(fs, directory).value == ValueError(UnmappedFilterUserMessage(fs[i].user))
    decreases |fs|
  {
    if fs != [] {
      var n := |fs| - 1;
      var p := fs[..n];
      assert forall j :: 0 <= j < n ==> p[j] == fs[j];
      if FirstUnmapped(p, directory).Some? {
        assert FirstUnmapped(fs, directory) == FirstUnmapped(p, directory);
        FirstUnmappedSpec(p, directory);
        var i :| 0 <= i < n && p[i].user !in directory
          && (forall j :: 0 <= j < i ==> p[j].user in directory)
          && FirstUnmapped(p, directory).value == ValueError(UnmappedFilterUserMessage(p[i].user));
        assert p[i].user == fs[i].user;
        assert forall j :: 0 <= j < i ==> fs[j].user in directory;
      } else if fs[n].user !in directory {
        assert FirstUnmapped(fs, directory) == Some(ValueError(UnmappedFilterUserMessage(fs[n].user)));
        FirstUnmappedIff(p, directory);
        assert forall j :: 0 <= j < n ==> fs[j].user in directory;
      }
    }
  }

  /**
   * The filter loop of provisioning: each declared filter in order, stopping at the
   * first that raises. Every iteration maps its user through the same directory, as
   * nothing in the loop changes the platform's users. It stops with
   * `FirstUnmapped`; when it runs to the end, the workspace's filter ids are the ones
   * it had plus the ids of the declared filters.
   */
  function AddFilters(st: RemoteState, fs: seq<UserDataFilter>, workspaceId: string, directory: map<string, string>)
    : (r: (RemoteState, Option<PyException>))
    requires workspaceId in st.workspaces
    ensures r.0 == st.(workspaces := r.0.workspaces) && r.0.workspaces.Keys == st.workspaces.Keys
    ensures forall x :: x in st.workspaces && x != workspaceId ==> r.0.workspaces[x] == st.workspaces[x]
    ensures r.0.workspaces[workspaceId] == st.workspaces[workspaceId].(filters := r.0.workspaces[workspaceId].filters)
    ensures r.1 == FirstUnmapped(fs, directory)
    ensures r.1.None? ==>
      FilterIds(r.0.workspaces[workspaceId].filters) == FilterIds(st.workspaces[workspaceId].filters) + set f | f in fs :: f.id
    decreases |fs|
  {
    if fs == [] then (st, None)
    else
      var n := |fs| - 1;
      assert fs == fs[..n] + [fs[n]];
      assert (set f | f in fs :: f.id) == (set f | f in fs[..n] :: f.id) + {fs[n].id};
      var prev := AddFilters(st, fs[..n], workspaceId, directory);
      if prev.1.Some? then prev else AddOne(prev.0, fs[n], workspaceId, directory)
  }

  /** Once a prefix of the filters raises, the rest of the filters are never reached. */
  lemma {:induction false} AddFiltersStopAtRaise(st: RemoteState, fs: seq<UserDataFilter>, workspaceId: string,
                                                 directory: map<string, string>, k: nat)
    requires workspaceId in st.workspaces && k <= |fs|
    requires AddFilters(st, fs[..k], workspaceId, directory).1.Some?
    ensures AddFilters(st, fs, workspaceId, directory) == AddFilters(st, fs[..k], workspaceId, directory)
    decreases |fs|
  {
    if k == |fs| {
      assert fs[..k] == fs;
    } else {
      var n := |fs| - 1;
      assert fs[..n][..k] == fs[..k];
      AddFiltersStopAtRaise(st, fs[..n], workspaceId, directory, k);
    }
  }

  /** No later declared filter carries the id of `fs[i]`: it is the one whose write survives. */
  predicate LastWithId(fs: seq<UserDataFilter>, i: int)
    requires 0 <= i < |fs|
  {
    forall j :: i < j < |fs| ==> fs[j].id != fs[i].id
  }

  /**
   * When the filter loop runs to the end, the filters whose id was not declared (or
   * that have none) are as before.
   */
  lemma {:induction false} AddFiltersKeepsOthers(st: RemoteState, fs: seq<UserDataFilter>, workspaceId: string,
                                                 directory: map<string, string>)
    requires workspaceId in st.workspaces
    requires AddFilters(st, fs, workspaceId, directory).1.None?
    ensures var before := st.workspaces[workspaceId].filters;
      var after := AddFilters(st, fs, workspaceId, directory).0.workspaces[workspaceId].filters;
      forall g: RemoteFilter :: g.id.None? || g.id.value !in (set f | f in fs :: f.id) ==> (g in after <==> g in before)
    decreases |fs|
  {
    if fs != [] {
      var n := |fs| - 1;
      var p := fs[..n];
      assert fs == p + [fs[n]];
      var prev := AddFilters(st, p, workspaceId, directory);
      assert prev.1.None?;
      AddFiltersKeepsOthers(st, p, workspaceId, directory);
      var one := AddOne(prev.0, fs[n], workspaceId, directory);
      assert one == AddFilters(st, fs, workspaceId, directory);
      var before := st.workspaces[workspaceId].filters;
      var after := one.0.workspaces[workspaceId].filters;
      forall g: RemoteFilter | g.id.None? || g.id.value !in (set f | f in fs :: f.id)
        ensures g in after <==> g in before
      {
        assert g.id != Some(fs[n].id);
        assert g.id.None? || g.id.value !in (set f | f in p :: f.id);
      }
    }
  }

  /**
   * When the filter loop runs to the end, each declared id is held by exactly one
   * filter, the one built from the last declared filter with that id.
   */
  lemma {:induction false} AddFiltersStores(st: RemoteState, fs: seq<UserDataFilter>, workspaceId: string,
                                            directory: map<string, string>)
    requires workspaceId in st.workspaces
    requires AddFilters(st, fs, workspaceId, directory).1.None?
    ensures var after := AddFilters(st, fs, workspaceId, directory).0.workspaces[workspaceId].filters;
      forall i :: 0 <= i < |fs| && LastWithId(fs, i) ==>
        && fs[i].user in directory
        && (forall g :: g in after && g.id == Some(fs[i].id) <==> g == FilterFor(fs[i], directory[fs[i].user]))
    decreases |fs|
  {
    if fs != [] {
      var n := |fs| - 1;
      var p := fs[..n];
      assert fs == p + [fs[n]];
      var prev := AddFilters(st, p, workspaceId, directory);
      assert prev.1.None?;
      AddFiltersStores(st, p, workspaceId, directory);
      var one := AddOne(prev.0, fs[n], workspaceId, directory);
      assert one == AddFilters(st, fs, workspaceId, directory);
      var after := one.0.workspaces[workspaceId].filters;
      forall i | 0 <= i < |fs| && LastWithId(fs, i)
        ensures fs[i].user in directory
        ensures forall g :: g in after && g.id == Some(fs[i].id) <==> g == FilterFor(fs[i], directory[fs[i].user])
      {
        if i < n {
          LastWithIdPrefix(fs, i);
          assert p[i] == fs[i];
        }
      }
    }
  }

  /** A filter that is last in the whole list is last in a prefix that holds it, and differs in id from the final one. */
  lemma LastWithIdPrefix(fs: seq<UserDataFilter>, i: int)
    requires 0 <= i < |fs| - 1 && LastWithId(fs, i)
    ensures LastWithId(fs[..|fs| - 1], i) && fs[|fs| - 1].id != fs[i].id
  {
    var p := fs[..|fs| - 1];
    forall j | i < j < |p|
      ensures p[j].id != p[i].id
    {
      assert p[j] == fs[j] && p[i] == fs[i];
    }
  }

  function ProvisionLink(host: string, spec: GoodDataSpecific): Link
  {
    Link("Go to \"" + spec.workspaceName + "\" workspace on GoodData", Url(host, spec.workspaceId))
  }

  /** The last part of provisioning: MANAGE for owner and dev group, then the filters are replaced. */
  function Finish(st: RemoteState, spec: GoodDataSpecific, ownerId: string, devId: string, host: string)
    : (r: (RemoteState, Response))
    requires spec.workspaceId in st.workspaces
  {
    var ws := spec.workspaceId;
    var managed := AddOrUpdateWorkspacePermissions(st, [ownerId], [devId], ws, "MANAGE");
    var filtered := AddFilters(RemoveUserDataFilters(managed, ws), spec.userDataFilters.GetOr([]), ws, UserTable(st.users));
    if filtered.1.Some? then (filtered.0, Raised(filtered.1.value))
    else (filtered.0, Provisioning(COMPLETED, "Provisioning completed", Some(ProvisionLink(host, spec))))
  }

  /**
   * The last part of provisioning changes only the workspace's permissions and
   * filters; when it completes, the owner and the dev group hold MANAGE, each
   * exactly once; the filters without an id are the ones the workspace had, and
   * each declared id is held by exactly one filter, built from the last declared
   * filter with that id for the user it maps to.
   */
  lemma FinishEffect(st: RemoteState, spec: GoodDataSpecific, ownerId: string, devId: string, host: string)
    requires spec.workspaceId in st.workspaces
    ensures var (after, resp) := Finish(st, spec, ownerId, devId, host);
      var ws := spec.workspaceId;
      && (resp.Raised? || resp == Provisioning(COMPLETED, "Provisioning completed", Some(ProvisionLink(host, spec))))
      && after == st.(workspaces := after.workspaces) && after.workspaces.Keys == st.workspaces.Keys
      && (forall x :: x in st.workspaces && x != ws ==> after.workspaces[x] == st.workspaces[x])
      && after.workspaces[ws].content == st.workspaces[ws].content
      && (resp.Provisioning? ==>
            var ps := after.workspaces[ws].permissions.permissions;
            && WorkspacePermission("MANAGE", Assignee(ownerId, User)) in ps
            && WorkspacePermission("MANAGE", Assignee(devId, UserGroup)) in ps
            && CountAssignee(ps, Assignee(ownerId, User)) == 1
            && CountAssignee(ps, Assignee(devId, UserGroup)) == 1
            && FilterIds(after.workspaces[ws].filters) == (set f | f in spec.userDataFilters.GetOr([]) :: f.id)
            && (forall g: RemoteFilter :: g.id.None? ==> (g in after.workspaces[ws].filters <==> g in st.workspaces[ws].filters))
            && var decl := spec.userDataFilters.GetOr([]);
               forall i :: 0 <= i < |decl| && LastWithId(decl, i) ==>
                 && decl[i].user in UserTable(st.users)
                 && (forall g :: g in after.workspaces[ws].filters && g.id == Some(decl[i].id)
                                 <==> g == FilterFor(decl[i], UserTable(st.users)[decl[i].user])))
  {
    var ws := spec.workspaceId;
    var managed := AddOrUpdateWorkspacePermissions(st, [ownerId], [devId], ws, "MANAGE");
    MergeGrantsEachPrincipalOnce(st.workspaces[ws].permissions, [ownerId], [devId], "MANAGE", Assignee(ownerId, User));
    MergeGrantsEachPrincipalOnce(st.workspaces[ws].permissions, [ownerId], [devId], "MANAGE", Assignee(devId, UserGroup));
    var cleared := RemoveUserDataFilters(managed, ws);
    var decl := spec.userDataFilters.GetOr([]);
    var filtered := AddFilters(cleared, decl, ws, UserTable(st.users));
    if filtered.1.None? {
      AddFiltersKeepsOthers(cleared, decl, ws, UserTable(st.users));
      AddFiltersStores(cleared, decl, ws, UserTable(st.users));
    }
  }

  /** Provisioning once the owner and dev group are mapped. */
  function ProvisionMapped(st: RemoteState, c: Component, spec: GoodDataSpecific, dp: DataProduct,
                           ownerId: string, devId: string, host: string): (r: (RemoteState, Response))
  {
    var populated := Populate(EnsureWorkspace(st, spec), c, spec, dp, ownerId, devId);
    if populated.1.Some? then (populated.0, Raised(populated.1.value))
    else Finish(populated.0, spec, ownerId, devId, host)
  }

  /** `provision`. */
  function Provision(st: RemoteState, c: Component, dp: DataProduct, host: string): (r: (RemoteState, Response))
  {
    match c.GetSpecific()
    case Failure(errors) => (st, Invalid([SpecificSectionError] + errors))
    case Success(spec) =>
      match MapOwnerDevGroup(st, dp)
      case Failure(errors) => (st, Invalid([ProvisionMappingError] + errors))
      case Success(ids) => ProvisionMapped(st, c, spec, dp, ids.0, ids.1, host)
  }

  /**
   * A specific section that does not parse, or an owner or dev group that cannot be
   * mapped, is answered with a validation error before anything on the platform changes.
   */
  lemma ProvisionRejectsBeforeMutation(st: RemoteState, c: Component, dp: DataProduct, host: string)
    ensures c.GetSpecific().Failure? ==>
      Provision(st, c, dp, host) == (st, Invalid([SpecificSectionError] + c.GetSpecific().error))
    ensures c.GetSpecific().Success? && dp.dataProductOwner !in UserTable(st.users) ==>
      Provision(st, c, dp, host) == (st, Invalid([ProvisionMappingError, OwnerMessage(dp.dataProductOwner)]))
    ensures c.GetSpecific().Success? && dp.dataProductOwner in UserTable(st.users) && dp.devGroup !in GroupTable(st.groups) ==>
      Provision(st, c, dp, host) == (st, Invalid([ProvisionMappingError, DevGroupMessage(dp.devGroup)]))
  {
    assert [ProvisionMappingError] + [OwnerMessage(dp.dataProductOwner)] == [ProvisionMappingError, OwnerMessage(dp.dataProductOwner)];
    assert [ProvisionMappingError] + [DevGroupMessage(dp.devGroup)] == [ProvisionMappingError, DevGroupMessage(dp.devGroup)];
  }

  /**
   * Provisioning never reports FAILED: it rejects the request, raises, or completes;
   * a completed provisioning leaves the workspace in place, linked as the host's
   * dashboard of that workspace, with MANAGE for the owner and the dev group, each
   * exactly once, and each declared id held by exactly one filter, built from the
   * last declared filter with that id for the user it maps to.
   */
  lemma ProvisionCompleted(st: RemoteState, c: Component, dp: DataProduct, host: string)
    ensures var resp := Provision(st, c, dp, host).1;
      resp.Invalid? || resp.Raised? || (resp.Provisioning? && resp.status == COMPLETED)
    ensures Provision(st, c, dp, host).1.Provisioning? ==>
      var after := Provision(st, c, dp, host).0;
      var spec := c.GetSpecific().value;
      var ws := spec.workspaceId;
      var owner := Assignee(UserTable(st.users)[dp.dataProductOwner], User);
      var dev := Assignee(GroupTable(st.groups)[dp.devGroup], UserGroup);
      && ws in after.workspaces
      && Provision(st, c, dp, host).1.link == Some(ProvisionLink(host, spec))
      && WorkspacePermission("MANAGE", owner) in after.workspaces[ws].permissions.permissions
      && WorkspacePermission("MANAGE", dev) in after.workspaces[ws].permissions.permissions
      && CountAssignee(after.workspaces[ws].permissions.permissions, owner) == 1
      && CountAssignee(after.workspaces[ws].permissions.permissions, dev) == 1
      && FilterIds(after.workspaces[ws].filters) == (set f | f in spec.userDataFilters.GetOr([]) :: f.id)
      && var decl := spec.userDataFilters.GetOr([]);
         forall i :: 0 <= i < |decl| && LastWithId(decl, i) ==>
           && decl[i].user in UserTable(st.users)
           && (forall g :: g in after.workspaces[ws].filters && g.id == Some(decl[i].id)
                           <==> g == FilterFor(decl[i], UserTable(st.users)[decl[i].user]))
  {
    if c.GetSpecific().Success? && MapOwnerDevGroup(st, dp).Success? {
      var spec := c.GetSpecific().value;
      var ids := MapOwnerDevGroup(st, dp).value;
      var populated := Populate(EnsureWorkspace(st, spec), c, spec, dp, ids.0, ids.1);
      if populated.1.None? {
        FinishEffect(populated.0, spec, ids.0, ids.1, host);
      }
    }
  }

  /**
   * A child workspace (one with a parent) gets neither content nor a data source nor
   * a model: its content, the data sources and the data-source permissions are as before.
   */
  lemma ProvisionChildWorkspace(st: RemoteState, c: Component, dp: DataProduct, host: string)
    requires c.GetSpecific().Success? && c.GetSpecific().value.parentWorkspaceId.Some?
    ensures var after := Provision(st, c, dp, host).0;
      var ws := c.GetSpecific().value.workspaceId;
      && after.dataSources == st.dataSources
      && after.userPermissions == st.userPermissions && after.groupPermissions == st.groupPermissions
      && (Provision(st, c, dp, host).1.Provisioning? ==>
            after.workspaces[ws].content == (if ws in st.workspaces then st.workspaces[ws].content else Content(None, None)))
  {
    var spec := c.GetSpecific().value;
    if MapOwnerDevGroup(st, dp).Success? {
      var ids := MapOwnerDevGroup(st, dp).value;
      FinishEffect(EnsureWorkspace(st, spec), spec, ids.0, ids.1, host);
    }
  }

  /**
   * A component declaring no dependency at all still enters the data-source step
   * (the error object is true in Python); the step's error is dropped and nothing
   * of it reaches the platform.
   */
  lemma ProvisionWithoutDependencies(st: RemoteState, c: Component, spec: GoodDataSpecific, dp: DataProduct,
                                     ownerId: string, devId: string)
    requires c.dependsOn == [] && spec.parentWorkspaceId.None? && spec.workspaceId in st.workspaces
    ensures HasSnowflakeDependency(FindSnowflakeDependencies(c, dp))
    ensures Populate(st, c, spec, dp, ownerId, devId)
         == (ImportWorkspace(st, spec.workspaceId, ContentOf(spec.workspaceLayout)), None)
  {
    var imported := ImportWorkspace(st, spec.workspaceId, ContentOf(spec.workspaceLayout));
    assert DataSourceStep(imported, c, spec.workspaceId, spec.workspaceLayout, dp, ownerId, devId).1
        == StepRejected(["Unable to extract Snowflake dependencies.", NoDependencyMessage(c.id)]);
  }

  /** Any validation error of the data-source step is dropped: provisioning goes on as if the step had done nothing. */
  lemma PopulateDropsStepErrors(st: RemoteState, c: Component, spec: GoodDataSpecific, dp: DataProduct,
                                ownerId: string, devId: string)
    requires spec.parentWorkspaceId.None? && spec.workspaceId in st.workspaces
    requires var imported := ImportWorkspace(st, spec.workspaceId, ContentOf(spec.workspaceLayout));
      !DataSourceStep(imported, c, spec.workspaceId, spec.workspaceLayout, dp, ownerId, devId).1.StepRaised?
      && !DataSourceStep(imported, c, spec.workspaceId, spec.workspaceLayout, dp, ownerId, devId).1.StepDone?
    ensures Populate(st, c, spec, dp, ownerId, devId)
         == (ImportWorkspace(st, spec.workspaceId, ContentOf(spec.workspaceLayout)), None)
  {
  }

  // ---------------------------------------------------------------- unprovision

  /** `unprovision`. */
  function Unprovision(st: RemoteState, c: Component, removeData: bool): (r: (RemoteState, Response))
  {
    match c.GetSpecific()
    case Failure(errors) => (st, Invalid([SpecificSectionError] + errors))
    case Success(spec) =>
      var ws := spec.workspaceId;
      if ws in st.workspaces then
        var emptied := if removeData then EmptyWorkspace(st, ws) else st;
        (RemoveWorkspacePermissions(emptied, ws), Provisioning(COMPLETED, "Unprovisioning completed", None))
      else (st, Provisioning(COMPLETED, "Unprovisioning completed (nothing to be done)", None))
  }

  /**
   * Unprovisioning a workspace that does not exist changes nothing; for one that
   * exists it removes every permission (keeping the hierarchy permissions), empties
   * the content only when data removal is requested, and touches nothing else.
   */
  lemma UnprovisionEffect(st: RemoteState, c: Component, removeData: bool)
    requires c.GetSpecific().Success?
    ensures var ws := c.GetSpecific().value.workspaceId;
      var (after, resp) := Unprovision(st, c, removeData);
      && resp.Provisioning? && resp.status == COMPLETED
      && (ws !in st.workspaces ==> after == st && resp.result == "Unprovisioning completed (nothing to be done)")
      && (ws in st.workspaces ==>
            && after == st.(workspaces := after.workspaces)
            && after.workspaces.Keys == st.workspaces.Keys
            && (forall x :: x in st.workspaces && x != ws ==> after.workspaces[x] == st.workspaces[x])
            && after.workspaces[ws].permissions == WorkspacePermissions([], st.workspaces[ws].permissions.hierarchyPermissions)
            && after.workspaces[ws].content == (if removeData then EmptyContent else st.workspaces[ws].content)
            && after.workspaces[ws].filters == st.workspaces[ws].filters)
  {
  }

  // ---------------------------------------------------------------- reverse provisioning

  const ContactSolution := "Contact the Platform Team for further assistance"

  /** `reverse_provision`: the request's parameters as a JSON object whose values are strings or null. */
  function ReverseProvision(st: RemoteState, parameters: Option<map<string, Option<string>>>): Response
  {
    if parameters.None? then
      RequestInvalid(["Missing parameters object in reverse provisioning request"],
                     "Missing required parameters for reverse provisioning request",
                     ["Missing required parameters for reverse provisioning request"],
                     ["Specify required parameters for reverse provisioning request", ContactSolution])
    else if "workspaceId" !in parameters.value then Raised(KeyError("workspaceId"))
    else
      var id := parameters.value["workspaceId"];
      if id.None? || id.value == "" then
        RequestInvalid(["Missing workspaceId in reverse provisioning request"],
                       "Missing required parameter workspaceId for reverse provisioning request",
                       ["Missing required parameter workspaceId for reverse provisioning request"],
                       ["Specify workspaceId for reverse provisioning request", ContactSolution])
      else if id.value in st.workspaces then
        ReverseProvisioned(COMPLETED, "Reverse provisioning completed", [(LayoutKey, st.workspaces[id.value].content)])
      else
        var message := "Workspace " + id.value + " does not exist";
        RequestInvalid([message], message, [message], ["Ensure the workspace id provided is correct", ContactSolution])
  }

  /**
   * Reverse provisioning completes exactly when a non-empty workspace id of an
   * existing workspace is given, and then returns that workspace's content under the
   * layout key and nothing else; a missing key raises, every other case is a request
   * error.
   */
  lemma ReverseProvisionOutcomes(st: RemoteState, parameters: Option<map<string, Option<string>>>)
    ensures var resp := ReverseProvision(st, parameters);
      && (resp.Raised? <==> parameters.Some? && "workspaceId" !in parameters.value)
      && (resp.ReverseProvisioned? <==>
            parameters.Some? && "workspaceId" in parameters.value && parameters.value["workspaceId"].Some?
            && parameters.value["workspaceId"].value != "" && parameters.value["workspaceId"].value in st.workspaces)
      && (resp.ReverseProvisioned? ==>
            resp.status == COMPLETED && resp.updates == [(LayoutKey, st.workspaces[parameters.value["workspaceId"].value].content)])
      && (!resp.Raised? && !resp.ReverseProvisioned? ==> resp.RequestInvalid?)
  {
  }

  // ---------------------------------------------------------------- update ACL

  /** The references starting with `prefix`, in order. */
  function WithPrefix(refs: seq<string>, prefix: string): (r: seq<string>)
    ensures forall x :: x in r <==> x in refs && StartsWith(x, prefix)
    decreases |refs|
  {
    if refs == [] then []
    else
      var n := |refs| - 1;
      assert refs == refs[..n] + [refs[n]];
      WithPrefix(refs[..n], prefix) + (if StartsWith(refs[n], prefix) then [refs[n]] else [])
  }

  lemma {:induction false} WithPrefixAppend(a: seq<string>, b: seq<string>, prefix: string)
    ensures WithPrefix(a + b, prefix) == WithPrefix(a, prefix) + WithPrefix(b, prefix)
    decreases |b|
  {
    if b == [] {
      assert a + b == a;
    } else {
      var n := |b| - 1;
      assert (a + b)[..|a + b| - 1] == a + b[..n];
      WithPrefixAppend(a, b[..n], prefix);
    }
  }

  function FailedAclMessage(invalidUsers: seq<string>, invalidGroups: seq<string>): string
  {
    "Update ACL failed, unable to map all users/groups. Problematic users: " + PyStrList(invalidUsers)
      + ", groups: " + PyStrList(invalidGroups)
  }

  /** What `update_acl` learns from `map_users` and `map_groups`: the ids found, and the references not found. */
  datatype ConsumerMapping = ConsumerMapping(validUsers: seq<string>, invalidUsers: seq<string>,
                                             validGroups: seq<string>, invalidGroups: seq<string>)

  /**
   * The `user:` references go through the user directory, the `group:` ones through
   * the group directory, and every other reference is ignored.
   */
  function MapConsumers(users: map<string, string>, groups: map<string, string>, refs: seq<string>): (m: ConsumerMapping)
    ensures forall r :: r in m.invalidUsers <==> r in refs && StartsWith(r, "user:") && r !in users
    ensures forall r :: r in m.invalidGroups <==> r in refs && StartsWith(r, "group:") && r !in groups
    ensures forall id :: id in m.validUsers <==> exists r :: r in refs && StartsWith(r, "user:") && r in users && users[r] == id
    ensures forall id :: id in m.validGroups <==> exists r :: r in refs && StartsWith(r, "group:") && r in groups && groups[r] == id
  {
    var userRefs := WithPrefix(refs, "user:");
    var groupRefs := WithPrefix(refs, "group:");
    ResolutionSplits(users, userRefs);
    ResolutionSplits(groups, groupRefs);
    var mappedUsers := Resolve(users, userRefs);
    var mappedGroups := Resolve(groups, groupRefs);
    ConsumerMapping(ResolvedIds(mappedUsers), UnresolvedRefs(mappedUsers), ResolvedIds(mappedGroups), UnresolvedRefs(mappedGroups))
  }

  /** The consumer grants of `update_acl`, after the owner and dev group got MANAGE back. */
  function GrantConsumers(st: RemoteState, ws: string, m: ConsumerMapping): (r: (RemoteState, Response))
    requires ws in st.workspaces
    ensures r.1.Provisioning? && (r.1.status == FAILED <==> |m.invalidUsers| > 0 || |m.invalidGroups| > 0)
    ensures r.0.workspaces.Keys == st.workspaces.Keys
    ensures forall id :: id in m.validUsers ==>
      WorkspacePermission("VIEW", Assignee(id, User)) in r.0.workspaces[ws].permissions.permissions
    ensures forall id :: id in m.validGroups ==>
      WorkspacePermission("VIEW", Assignee(id, UserGroup)) in r.0.workspaces[ws].permissions.permissions
  {
    var granted := AddOrUpdateWorkspacePermissions(st, m.validUsers, m.validGroups, ws, "VIEW");
    if |m.invalidUsers| == 0 && |m.invalidGroups| == 0 then (granted, Provisioning(COMPLETED, "Update ACL completed", None))
    else (granted, Provisioning(FAILED, FailedAclMessage(m.invalidUsers, m.invalidGroups), None))
  }

  /**
   * `update_acl`. The platform's users and groups are read from the state it starts
   * in: nothing the operation does changes them.
   */
  function UpdateAcl(st: RemoteState, c: Component, dp: DataProduct, refs: seq<string>): (r: (RemoteState, Response))
  {
    match c.GetSpecific()
    case Failure(errors) => (st, Invalid([SpecificSectionError] + errors))
    case Success(spec) =>
      var ws := spec.workspaceId;
      if ws !in st.workspaces then
        (st, Provisioning(FAILED, "Update ACL failed, workspace " + ws + " does not exist.", None))
      else
        var stripped := RemoveWorkspacePermissions(st, ws);
        match MapOwnerDevGroup(st, dp)
        case Failure(errors) => (stripped, Invalid([AclMappingError] + errors))
        case Success(ids) =>
          var managed := AddOrUpdateWorkspacePermissions(stripped, [ids.0], [ids.1], ws, "MANAGE");
          GrantConsumers(managed, ws, MapConsumers(UserTable(st.users), GroupTable(st.groups), refs))
  }

  /** Updating the ACL of a workspace that does not exist reports FAILED and changes nothing. */
  lemma UpdateAclAbsentWorkspace(st: RemoteState, c: Component, dp: DataProduct, refs: seq<string>)
    requires c.GetSpecific().Success? && c.GetSpecific().value.workspaceId !in st.workspaces
    ensures UpdateAcl(st, c, dp, refs).0 == st
    ensures UpdateAcl(st, c, dp, refs).1 ==
      Provisioning(FAILED, "Update ACL failed, workspace " + c.GetSpecific().value.workspaceId + " does not exist.", None)
  {
  }

  /**
   * The permissions are stripped before the owner and dev group are mapped: when
   * that mapping fails, the workspace is left with no permissions at all.
   */
  lemma UpdateAclMappingFailureLeavesNoPermissions(st: RemoteState, c: Component, dp: DataProduct, refs: seq<string>)
    requires c.GetSpecific().Success? && c.GetSpecific().value.workspaceId in st.workspaces
    requires !(dp.dataProductOwner in UserTable(st.users) && dp.devGroup in GroupTable(st.groups))
    ensures var ws := c.GetSpecific().value.workspaceId;
      var (after, resp) := UpdateAcl(st, c, dp, refs);
      && resp.Invalid? && resp.errors[0] == AclMappingError
      && after.workspaces[ws].permissions.permissions == []
  {
  }

  /**
   * After a successful mapping of owner and dev group, the result is FAILED exactly
   * when some `user:` or `group:` reference is unknown to the platform.
   */
  lemma UpdateAclStatus(st: RemoteState, c: Component, dp: DataProduct, refs: seq<string>)
    requires c.GetSpecific().Success? && c.GetSpecific().value.workspaceId in st.workspaces
    requires dp.dataProductOwner in UserTable(st.users) && dp.devGroup in GroupTable(st.groups)
    ensures var resp := UpdateAcl(st, c, dp, refs).1;
      && resp.Provisioning?
      && (resp.status == FAILED <==>
            exists r :: r in refs && ((StartsWith(r, "user:") && r !in UserTable(st.users))
                                   || (StartsWith(r, "group:") && r !in GroupTable(st.groups))))
  {
    var users := UserTable(st.users);
    var groups := GroupTable(st.groups);
    var m := MapConsumers(users, groups, refs);
    if |m.invalidUsers| > 0 {
      assert m.invalidUsers[0] in m.invalidUsers;
    }
    if |m.invalidGroups| > 0 {
      assert m.invalidGroups[0] in m.invalidGroups;
    }
    if exists r :: r in refs && ((StartsWith(r, "user:") && r !in users) || (StartsWith(r, "group:") && r !in groups)) {
      var r :| r in refs && ((StartsWith(r, "user:") && r !in users) || (StartsWith(r, "group:") && r !in groups));
      assert r in m.invalidUsers || r in m.invalidGroups;
    }
  }

  /**
   * Whatever the status, every `user:` or `group:` reference the platform knows
   * ends with VIEW on the workspace.
   */
  lemma UpdateAclViewGrants(st: RemoteState, c: Component, dp: DataProduct, refs: seq<string>, x: string)
    requires c.GetSpecific().Success? && c.GetSpecific().value.workspaceId in st.workspaces
    requires dp.dataProductOwner in UserTable(st.users) && dp.devGroup in GroupTable(st.groups)
    requires x in refs
    ensures var ws := c.GetSpecific().value.workspaceId;
      var after := UpdateAcl(st, c, dp, refs).0;
      && (StartsWith(x, "user:") && x in UserTable(st.users) ==>
            WorkspacePermission("VIEW", Assignee(UserTable(st.users)[x], User)) in after.workspaces[ws].permissions.permissions)
      && (StartsWith(x, "group:") && x in GroupTable(st.groups) ==>
            WorkspacePermission("VIEW", Assignee(GroupTable(st.groups)[x], UserGroup)) in after.workspaces[ws].permissions.permissions)
  {
    var m := MapConsumers(UserTable(st.users), GroupTable(st.groups), refs);
    if StartsWith(x, "user:") && x in UserTable(st.users) {
      assert UserTable(st.users)[x] in m.validUsers;
    }
    if StartsWith(x, "group:") && x in GroupTable(st.groups) {
      assert GroupTable(st.groups)[x] in m.validGroups;
    }
  }

  /**
   * A consumer grant overrides the owner's: when the owner is also among the `user:`
   * references, the owner ends with VIEW and no longer with MANAGE.
   */
  lemma UpdateAclOwnerAsConsumer(st: RemoteState, c: Component, dp: DataProduct, refs: seq<string>)
    requires c.GetSpecific().Success? && c.GetSpecific().value.workspaceId in st.workspaces
    requires dp.dataProductOwner in UserTable(st.users) && dp.devGroup in GroupTable(st.groups)
    requires dp.dataProductOwner in refs && StartsWith(dp.dataProductOwner, "user:")
    ensures var ws := c.GetSpecific().value.workspaceId;
      var owner := Assignee(UserTable(st.users)[dp.dataProductOwner], User);
      var after := UpdateAcl(st, c, dp, refs).0;
      && WorkspacePermission("VIEW", owner) in after.workspaces[ws].permissions.permissions
      && WorkspacePermission("MANAGE", owner) !in after.workspaces[ws].permissions.permissions
  {
    var m := MapConsumers(UserTable(st.users), GroupTable(st.groups), refs);
    assert UserTable(st.users)[dp.dataProductOwner] in m.validUsers;
  }

  /**
   * After a successful mapping of owner and dev group, whatever the status, the
   * workspace's permission list is rebuilt from nothing: VIEW for every mapped
   * consumer, MANAGE for the owner and the dev group unless their id is also a
   * consumer's, and no other entry, so an earlier grant not renewed is revoked.
   * The hierarchy permissions are kept and nothing else on the platform changes.
   */
  /**
   * A successful `update_acl` changes nothing but the workspace's permissions, which
   * become the stripped list with MANAGE granted to the owner and the development
   * group and then VIEW granted to the mapped consumers.
   */
  lemma UpdateAclState(st: RemoteState, c: Component, dp: DataProduct, refs: seq<string>)
    requires c.GetSpecific().Success? && c.GetSpecific().value.workspaceId in st.workspaces
    requires dp.dataProductOwner in UserTable(st.users) && dp.devGroup in GroupTable(st.groups)
    ensures var ws := c.GetSpecific().value.workspaceId;
      var m := MapConsumers(UserTable(st.users), GroupTable(st.groups), refs);
      var w := st.workspaces[ws];
      UpdateAcl(st, c, dp, refs).0
        == st.(workspaces := st.workspaces[ws := w.(permissions := MergeWorkspacePermissions(
             MergeWorkspacePermissions(StripWorkspacePermissions(w.permissions),
               [UserTable(st.users)[dp.dataProductOwner]], [GroupTable(st.groups)[dp.devGroup]], "MANAGE"),
             m.validUsers, m.validGroups, "VIEW"))])
  {
    var ws := c.GetSpecific().value.workspaceId;
    var o := UserTable(st.users)[dp.dataProductOwner];
    var d := GroupTable(st.groups)[dp.devGroup];
    var m := MapConsumers(UserTable(st.users), GroupTable(st.groups), refs);
    UpdateAclUnfold(st, c, dp, refs);
    RebuildThenGrant(st, ws, o, d, m.validUsers, m.validGroups);
  }

  /** The successful `update_acl` as the three platform calls it makes. */
  lemma UpdateAclUnfold(st: RemoteState, c: Component, dp: DataProduct, refs: seq<string>)
    requires c.GetSpecific().Success? && c.GetSpecific().value.workspaceId in st.workspaces
    requires dp.dataProductOwner in UserTable(st.users) && dp.devGroup in GroupTable(st.groups)
    ensures var ws := c.GetSpecific().value.workspaceId;
      var m := MapConsumers(UserTable(st.users), GroupTable(st.groups), refs);
      var stripped := RemoveWorkspacePermissions(st, ws);
      var managed := AddOrUpdateWorkspacePermissions(stripped,
        [UserTable(st.users)[dp.dataProductOwner]], [GroupTable(st.groups)[dp.devGroup]], ws, "MANAGE");
      UpdateAcl(st, c, dp, refs).0 == AddOrUpdateWorkspacePermissions(managed, m.validUsers, m.validGroups, ws, "VIEW")
  {
    var ws := c.GetSpecific().value.workspaceId;
    var ids := MapOwnerDevGroup(st, dp);
    assert ids.Success?;
  }

  /** The three platform calls of `update_acl` touch only one workspace's permissions. */
  lemma RebuildThenGrant(st: RemoteState, ws: string, o: string, d: string,
                         viewUsers: seq<string>, viewGroups: seq<string>)
    requires ws in st.workspaces
    ensures var w := st.workspaces[ws];
      var stripped := RemoveWorkspacePermissions(st, ws);
      var managed := AddOrUpdateWorkspacePermissions(stripped, [o], [d], ws, "MANAGE");
      AddOrUpdateWorkspacePermissions(managed, viewUsers, viewGroups, ws, "VIEW")
        == st.(workspaces := st.workspaces[ws := w.(permissions := MergeWorkspacePermissions(
             MergeWorkspacePermissions(StripWorkspacePermissions(w.permissions), [o], [d], "MANAGE"),
             viewUsers, viewGroups, "VIEW"))])
  {
    var w := st.workspaces[ws];
    var s1 := StripWorkspacePermissions(w.permissions);
    var s2 := MergeWorkspacePermissions(s1, [o], [d], "MANAGE");
    var stripped := RemoveWorkspacePermissions(st, ws);
    assert stripped.workspaces == st.workspaces[ws := w.(permissions := s1)];
    var managed := AddOrUpdateWorkspacePermissions(stripped, [o], [d], ws, "MANAGE");
    assert managed.workspaces == st.workspaces[ws := w.(permissions := s2)];
  }

  /**
   * After a successful `update_acl` the workspace holds exactly the VIEW grants of the
   * mapped consumers and MANAGE for the owner and the development group where no VIEW
   * grant names the same id; its hierarchy permissions and everything else are kept.
   */
  lemma UpdateAclPermissions(st: RemoteState, c: Component, dp: DataProduct, refs: seq<string>)
    requires c.GetSpecific().Success? && c.GetSpecific().value.workspaceId in st.workspaces
    requires dp.dataProductOwner in UserTable(st.users) && dp.devGroup in GroupTable(st.groups)
    ensures var ws := c.GetSpecific().value.workspaceId;
      var after := UpdateAcl(st, c, dp, refs).0;
      var m := MapConsumers(UserTable(st.users), GroupTable(st.groups), refs);
      var owner := Assignee(UserTable(st.users)[dp.dataProductOwner], User);
      var dev := Assignee(GroupTable(st.groups)[dp.devGroup], UserGroup);
      && ws in after.workspaces
      && after == st.(workspaces := st.workspaces[ws := st.workspaces[ws].(permissions := after.workspaces[ws].permissions)])
      && after.workspaces[ws].permissions.hierarchyPermissions == st.workspaces[ws].permissions.hierarchyPermissions
      && forall p :: p in after.workspaces[ws].permissions.permissions <==>
           || (p.name == "VIEW" && p.assignee.assigneeType == User && p.assignee.id in m.validUsers)
           || (p.name == "VIEW" && p.assignee.assigneeType == UserGroup && p.assignee.id in m.validGroups)
           || (p.name == "MANAGE" && (p.assignee == owner || p.assignee == dev)
                 && p.assignee.id !in m.validUsers && p.assignee.id !in m.validGroups)
  {
    var ws := c.GetSpecific().value.workspaceId;
    var m := MapConsumers(UserTable(st.users), GroupTable(st.groups), refs);
    UpdateAclState(st, c, dp, refs);
    StripThenGrant(st.workspaces[ws].permissions, UserTable(st.users)[dp.dataProductOwner],
                   GroupTable(st.groups)[dp.devGroup], m.validUsers, m.validGroups);
  }

  /** References with neither prefix are ignored: adding one changes neither the outcome nor the platform. */
  lemma UpdateAclIgnoresOtherReferences(st: RemoteState, c: Component, dp: DataProduct,
                                        before: seq<string>, x: string, after: seq<string>)
    requires !StartsWith(x, "user:") && !StartsWith(x, "group:")
    ensures UpdateAcl(st, c, dp, before + [x] + after) == UpdateAcl(st, c, dp, before + after)
  {
    WithPrefixAppend(before + [x], after, "user:");
    WithPrefixAppend(before, after, "user:");
    WithPrefixAppend(before + [x], after, "group:");
    WithPrefixAppend(before, after, "group:");
    assert WithPrefix(before + [x], "user:") == WithPrefix(before, "user:");
    assert WithPrefix(before + [x], "group:") == WithPrefix(before, "group:");
  }
}
