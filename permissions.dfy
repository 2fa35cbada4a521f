/**
 * The permission merges of the GoodData client, as pure functions over permission
 * lists: the workspace upsert (drop every entry of a listed principal, then put one
 * fresh grant per principal in front) and the per-principal data-source upsert
 * (drop the entry for that data source, then append one fresh entry).
 */
module Permissions {
  import opened Wrappers

  datatype AssigneeType = User | UserGroup

  datatype Assignee = Assignee(id: string, assigneeType: AssigneeType)

  /** One workspace permission: a level ("MANAGE", "VIEW", ...) granted to an assignee. */
  datatype WorkspacePermission = WorkspacePermission(name: string, assignee: Assignee)

  /** A workspace's declarative permissions; the hierarchy permissions are carried along untouched. */
  datatype WorkspacePermissions = WorkspacePermissions(
    permissions: seq<WorkspacePermission>,
    hierarchyPermissions: seq<WorkspacePermission>)

  /** The levels a principal holds on one data source. */
  datatype DataSourcePermission = DataSourcePermission(id: string, permissions: seq<string>)

  /** The levels a principal holds on one workspace (kept as they are by the data-source upsert). */
  datatype WorkspaceAssignment = WorkspaceAssignment(id: string, permissions: seq<string>)

  /** Everything a user or group is granted, as the platform reports it per principal. */
  datatype PermissionAssignments = PermissionAssignments(
    workspaces: seq<WorkspaceAssignment>,
    dataSources: seq<DataSourcePermission>)

  // ---------------------------------------------------------------- workspace permissions

  /** One grant at `level` per id, in the order of `ids`. */
  function Grants(ids: seq<string>, level: string, t: AssigneeType): seq<WorkspacePermission>
  {
    seq(|ids|, i requires 0 <= i < |ids| => WorkspacePermission(level, Assignee(ids[i], t)))
  }

  /** The grants are exactly the permissions at `level` for a listed id of that kind. */
  lemma GrantsMembers(ids: seq<string>, level: string, t: AssigneeType)
    ensures forall p :: p in Grants(ids, level, t) <==> p.name == level && p.assignee.assigneeType == t && p.assignee.id in ids
  {
    forall p: WorkspacePermission | p.name == level && p.assignee.assigneeType == t && p.assignee.id in ids
      ensures p in Grants(ids, level, t)
    {
      var i :| 0 <= i < |ids| && ids[i] == p.assignee.id;
      assert Grants(ids, level, t)[i] == p;
    }
  }

  /** The entries whose assignee id is not listed, in their original order. */
  function Unlisted(existing: seq<WorkspacePermission>, ids: seq<string>): (r: seq<WorkspacePermission>)
    ensures |r| <= |existing|
    ensures forall p :: p in r <==> p in existing && p.assignee.id !in ids
    decreases |existing|
  {
    if existing == [] then []
    else if existing[0].assignee.id in ids then Unlisted(existing[1..], ids)
    else [existing[0]] + Unlisted(existing[1..], ids)
  }

  /**
   * `add_or_update_workspace_permissions`: user grants, then group grants, then the
   * existing entries of principals in neither list, in their original order.
   */
  function MergeWorkspacePermissions(existing: WorkspacePermissions, userIds: seq<string>, groupIds: seq<string>,
                                     level: string): (r: WorkspacePermissions)
    ensures r.hierarchyPermissions == existing.hierarchyPermissions
    ensures forall p :: p in r.permissions <==>
      || (p.name == level && p.assignee.assigneeType == User && p.assignee.id in userIds)
      || (p.name == level && p.assignee.assigneeType == UserGroup && p.assignee.id in groupIds)
      || (p in existing.permissions && p.assignee.id !in userIds && p.assignee.id !in groupIds)
    ensures |r.permissions| >= |userIds| + |groupIds|
    ensures forall i :: 0 <= i < |userIds| ==> r.permissions[i] == WorkspacePermission(level, Assignee(userIds[i], User))
    ensures forall i :: 0 <= i < |groupIds| ==>
      r.permissions[|userIds| + i] == WorkspacePermission(level, Assignee(groupIds[i], UserGroup))
    ensures r.permissions[|userIds| + |groupIds|..] == Unlisted(existing.permissions, userIds + groupIds)
  {
    var kept := Unlisted(existing.permissions, userIds + groupIds);
    var ps := Grants(userIds, level, User) + Grants(groupIds, level, UserGroup) + kept;
    GrantsMembers(userIds, level, User);
    GrantsMembers(groupIds, level, UserGroup);
    assert ps[|userIds| + |groupIds|..] == kept;
    WorkspacePermissions(ps, existing.hierarchyPermissions)
  }

  /** `remove_workspace_permissions`: no permissions left, hierarchy permissions kept. */
  function StripWorkspacePermissions(existing: WorkspacePermissions): (r: WorkspacePermissions)
    ensures r.permissions == [] && r.hierarchyPermissions == existing.hierarchyPermissions
  {
    WorkspacePermissions([], existing.hierarchyPermissions)
  }

  lemma {:induction false} UnlistedAppend(a: seq<WorkspacePermission>, b: seq<WorkspacePermission>, ids: seq<string>)
    ensures Unlisted(a + b, ids) == Unlisted(a, ids) + Unlisted(b, ids)
    decreases |a|
  {
    if a == [] {
      assert a + b == b;
    } else {
      assert (a + b)[1..] == a[1..] + b;
      UnlistedAppend(a[1..], b, ids);
    }
  }

  lemma {:induction false} UnlistedTwice(a: seq<WorkspacePermission>, ids: seq<string>)
    ensures Unlisted(Unlisted(a, ids), ids) == Unlisted(a, ids)
    decreases |a|
  {
    if a != [] {
      UnlistedTwice(a[1..], ids);
      if a[0].assignee.id !in ids {
        assert ([a[0]] + Unlisted(a[1..], ids))[1..] == Unlisted(a[1..], ids);
      }
    }
  }

  lemma {:induction false} UnlistedOfListed(a: seq<WorkspacePermission>, ids: seq<string>)
    requires forall i :: 0 <= i < |a| ==> a[i].assignee.id in ids
    ensures Unlisted(a, ids) == []
    decreases |a|
  {
    if a != [] {
      UnlistedOfListed(a[1..], ids);
    }
  }

  /** The entries of principals in neither list are the same before and after the workspace upsert. */
  lemma MergeKeepsUnlisted(existing: WorkspacePermissions, userIds: seq<string>, groupIds: seq<string>, level: string)
    ensures Unlisted(MergeWorkspacePermissions(existing, userIds, groupIds, level).permissions, userIds + groupIds)
         == Unlisted(existing.permissions, userIds + groupIds)
  {
    var ids := userIds + groupIds;
    var grants := Grants(userIds, level, User) + Grants(groupIds, level, UserGroup);
    var kept := Unlisted(existing.permissions, ids);
    assert MergeWorkspacePermissions(existing, userIds, groupIds, level).permissions == grants + kept;
    UnlistedAppend(grants, kept, ids);
    UnlistedOfListed(grants, ids);
    UnlistedTwice(existing.permissions, ids);
  }

  /**
   * Stripping, then granting MANAGE to one user and one group, then granting VIEW:
   * what is left is exactly the VIEW grants and those MANAGE grants whose id the
   * VIEW grants do not name; the hierarchy permissions are kept.
   */
  lemma StripThenGrant(existing: WorkspacePermissions, ownerId: string, devId: string,
                       viewUsers: seq<string>, viewGroups: seq<string>)
    ensures var r := MergeWorkspacePermissions(
              MergeWorkspacePermissions(StripWorkspacePermissions(existing), [ownerId], [devId], "MANAGE"),
              viewUsers, viewGroups, "VIEW");
      && r.hierarchyPermissions == existing.hierarchyPermissions
      && forall p :: p in r.permissions <==>
           || (p.name == "VIEW" && p.assignee.assigneeType == User && p.assignee.id in viewUsers)
           || (p.name == "VIEW" && p.assignee.assigneeType == UserGroup && p.assignee.id in viewGroups)
           || (p.name == "MANAGE" && (p.assignee == Assignee(ownerId, User) || p.assignee == Assignee(devId, UserGroup))
                 && p.assignee.id !in viewUsers && p.assignee.id !in viewGroups)
  {
    var managed := MergeWorkspacePermissions(StripWorkspacePermissions(existing), [ownerId], [devId], "MANAGE");
    assert forall p :: p in managed.permissions <==>
      p.name == "MANAGE" && (p.assignee == Assignee(ownerId, User) || p.assignee == Assignee(devId, UserGroup));
  }

  /** Repeating the workspace upsert with the same arguments changes nothing. */
  lemma MergeWorkspacePermissionsIdempotent(existing: WorkspacePermissions, userIds: seq<string>,
                                            groupIds: seq<string>, level: string)
    ensures var once := MergeWorkspacePermissions(existing, userIds, groupIds, level);
      MergeWorkspacePermissions(once, userIds, groupIds, level) == once
  {
    var once := MergeWorkspacePermissions(existing, userIds, groupIds, level);
    MergeKeepsUnlisted(existing, userIds, groupIds, level);
    var twice := MergeWorkspacePermissions(once, userIds, groupIds, level);
    assert twice.permissions == once.permissions;
  }

  /** How many entries name exactly this assignee. */
  function CountAssignee(ps: seq<WorkspacePermission>, a: Assignee): nat
    decreases |ps|
  {
    if ps == [] then 0 else (if ps[0].assignee == a then 1 else 0) + CountAssignee(ps[1..], a)
  }

  lemma {:induction false} CountAssigneeAppend(a: seq<WorkspacePermission>, b: seq<WorkspacePermission>, x: Assignee)
    ensures CountAssignee(a + b, x) == CountAssignee(a, x) + CountAssignee(b, x)
    decreases |a|
  {
    if a == [] {
      assert a + b == b;
    } else {
      assert (a + b)[1..] == a[1..] + b;
      CountAssigneeAppend(a[1..], b, x);
    }
  }

  lemma {:induction false} CountAssigneeGrants(ids: seq<string>, level: string, t: AssigneeType, x: Assignee)
    requires NoDuplicates(ids)
    ensures CountAssignee(Grants(ids, level, t), x) == if x.assigneeType == t && x.id in ids then 1 else 0
    decreases |ids|
  {
    if ids != [] {
      var g := Grants(ids, level, t);
      assert g[1..] == Grants(ids[1..], level, t);
      CountAssigneeGrants(ids[1..], level, t, x);
      assert ids == [ids[0]] + ids[1..];
      assert ids[0] !in ids[1..];
    }
  }

  lemma CountAssigneeAbsent(ps: seq<WorkspacePermission>, x: Assignee)
    requires forall p :: p in ps ==> p.assignee != x
    ensures CountAssignee(ps, x) == 0
  {
  }

  /**
   * When neither id list repeats an id, every listed principal ends up with exactly
   * one entry, and that entry is at `level`.
   */
  lemma MergeGrantsEachPrincipalOnce(existing: WorkspacePermissions, userIds: seq<string>, groupIds: seq<string>,
                                     level: string, x: Assignee)
    requires NoDuplicates(userIds) && NoDuplicates(groupIds)
    requires (x.assigneeType == User && x.id in userIds) || (x.assigneeType == UserGroup && x.id in groupIds)
    ensures var r := MergeWorkspacePermissions(existing, userIds, groupIds, level);
      CountAssignee(r.permissions, x) == 1 &&
      forall p :: p in r.permissions && p.assignee == x ==> p.name == level
  {
    var gu := Grants(userIds, level, User);
    var gg := Grants(groupIds, level, UserGroup);
    var kept := Unlisted(existing.permissions, userIds + groupIds);
    CountAssigneeAppend(gu + gg, kept, x);
    CountAssigneeAppend(gu, gg, x);
    CountAssigneeGrants(userIds, level, User, x);
    CountAssigneeGrants(groupIds, level, UserGroup, x);
    CountAssigneeAbsent(kept, x);
  }

  // ---------------------------------------------------------------- data-source permissions

  /** The data-source entries for other data sources, in their original order. */
  function OtherDataSources(ps: seq<DataSourcePermission>, dataSourceId: string): (r: seq<DataSourcePermission>)
    ensures forall p :: p in r <==> p in ps && p.id != dataSourceId
    decreases |ps|
  {
    if ps == [] then []
    else if ps[0].id == dataSourceId then OtherDataSources(ps[1..], dataSourceId)
    else [ps[0]] + OtherDataSources(ps[1..], dataSourceId)
  }

  /** Dropping works entry by entry: it distributes over concatenation, so the kept entries keep their order. */
  lemma {:induction false} OtherDataSourcesAppend(a: seq<DataSourcePermission>, b: seq<DataSourcePermission>,
                                                 dataSourceId: string)
    ensures OtherDataSources(a + b, dataSourceId) == OtherDataSources(a, dataSourceId) + OtherDataSources(b, dataSourceId)
    decreases |a|
  {
    if a == [] {
      assert a + b == b;
    } else {
      assert (a + b)[0] == a[0] && (a + b)[1..] == a[1..] + b;
      OtherDataSourcesAppend(a[1..], b, dataSourceId);
    }
  }

  /**
   * The per-principal step of `set_data_source_permissions`: entries for the data
   * source are dropped and one entry `[level]` is appended; other data-source entries
   * keep their order and the workspace part is untouched.
   */
  function UpsertDataSourcePermission(existing: PermissionAssignments, dataSourceId: string, level: string)
    : (r: PermissionAssignments)
    ensures r.workspaces == existing.workspaces
    ensures |r.dataSources| >= 1 && r.dataSources[|r.dataSources| - 1] == DataSourcePermission(dataSourceId, [level])
    ensures r.dataSources[..|r.dataSources| - 1] == OtherDataSources(existing.dataSources, dataSourceId)
    ensures forall p :: p in r.dataSources && p.id != dataSourceId <==> p in existing.dataSources && p.id != dataSourceId
    ensures forall i :: 0 <= i < |r.dataSources| - 1 ==> r.dataSources[i].id != dataSourceId
  {
    var kept := OtherDataSources(existing.dataSources, dataSourceId);
    var ds := kept + [DataSourcePermission(dataSourceId, [level])];
    assert ds[..|ds| - 1] == kept;
    assert forall i :: 0 <= i < |ds| - 1 ==> ds[i] in kept;
    PermissionAssignments(existing.workspaces, ds)
  }

  lemma {:induction false} OtherDataSourcesTwice(ps: seq<DataSourcePermission>, dataSourceId: string)
    ensures OtherDataSources(OtherDataSources(ps, dataSourceId), dataSourceId) == OtherDataSources(ps, dataSourceId)
    decreases |ps|
  {
    if ps != [] {
      OtherDataSourcesTwice(ps[1..], dataSourceId);
      if ps[0].id != dataSourceId {
        var r := OtherDataSources(ps[1..], dataSourceId);
        assert ([ps[0]] + r)[1..] == r;
      }
    }
  }

  lemma {:induction false} OtherDataSourcesDropsLast(ps: seq<DataSourcePermission>, p: DataSourcePermission)
    ensures OtherDataSources(ps + [p], p.id) == OtherDataSources(ps, p.id)
    decreases |ps|
  {
    if ps == [] {
      assert OtherDataSources([p], p.id) == OtherDataSources([p][1..], p.id);
    } else {
      assert (ps + [p])[1..] == ps[1..] + [p];
      OtherDataSourcesDropsLast(ps[1..], p);
    }
  }

  /** Repeating the data-source upsert with the same arguments changes nothing. */
  lemma UpsertDataSourcePermissionIdempotent(existing: PermissionAssignments, dataSourceId: string, level: string)
    ensures var once := UpsertDataSourcePermission(existing, dataSourceId, level);
      UpsertDataSourcePermission(once, dataSourceId, level) == once
  {
    var kept := OtherDataSources(existing.dataSources, dataSourceId);
    var entry := DataSourcePermission(dataSourceId, [level]);
    OtherDataSourcesDropsLast(kept, entry);
    OtherDataSourcesTwice(existing.dataSources, dataSourceId);
  }
}
