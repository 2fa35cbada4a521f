/**
 * The GoodData specific provisioner service: the lifecycle operations as methods
 * driving a `GoodDataClient`, each proved to leave the platform in the state, and
 * to answer with the response, that the pure specification in `Lifecycle` gives.
 */
module Service {
  import opened Wrappers
  import opened Descriptor
  import opened Identity
  import opened Naming
  import opened Remote
  import opened Lifecycle
  import opened Client

  class GoodDataService {
    const client: GoodDataClient

    constructor(client: GoodDataClient)
      ensures this.client == client
    {
      this.client := client;
    }

    /** `_map_dp_owner_dev_group`: the owner through `map_users`, then the dev group through `map_groups`. */
    method MapDpOwnerDevGroup(dp: DataProduct) returns (r: Result<(string, string), seq<string>>)
      ensures r == Lifecycle.MapOwnerDevGroup(client.State(), dp)
    {
      var owner := dp.dataProductOwner;
      var mappedUsers := client.MapUsers([owner]);
      GetResolve(UserTable(client.users), [owner], owner);
      var ownerId := Get(mappedUsers, owner);
      if ownerId.None? {
        return Failure([OwnerMessage(owner)]);
      }
      var devGroup := dp.devGroup;
      var mappedGroups := client.MapGroups([devGroup]);
      GetResolve(GroupTable(client.groups), [devGroup], devGroup);
      var devId := Get(mappedGroups, devGroup);
      if devId.None? {
        return Failure([DevGroupMessage(devGroup)]);
      }
      r := Success((ownerId.value, devId.value));
    }

    /**
     * `_provision_data_source_and_ldm`: extract the Snowflake dependency and its
     * metadata, create the data source, grant USE to the owner and the dev group,
     * and generate the model unless the layout already has one.
     */
    method ProvisionDataSourceAndLdm(c: Component, workspaceId: string, layout: WorkspaceLayout, dp: DataProduct,
                                     ownerId: string, devId: string) returns (outcome: StepOutcome)
      requires workspaceId in client.workspaces
      modifies client
      ensures (client.State(), outcome) == DataSourceStep(old(client.State()), c, workspaceId, layout, dp, ownerId, devId)
    {
      match ExtractSnowflakeDependency(c, dp)
      case Rejected(errors) =>
        return StepRejected(["Unable to extract Snowflake dependencies."] + errors);
      case ExtractRaised(e) =>
        return StepRaised(e);
      case Extracted(None) =>
        // the typed lookup found nothing: reading its metadata raises
        return StepRaised(AttributeError);
      case Extracted(Some(snowflakeComponent)) =>
        var metadata := snowflakeComponent.GetSnowflakeMetadata();
        if metadata.Failure? {
          return StepRejected(["Unable to extract Snowflake metadata."] + metadata.error);
        }
        var md := metadata.value;
        var dataSourceId := DataSourceId(c.id, snowflakeComponent.id);
        var dataSourceName := DataSourceName(c, snowflakeComponent.name);
        if dataSourceName.Failure? {
          return StepRaised(dataSourceName.error);
        }
        var dataSource := client.CreateSnowflakeDatasource(dataSourceId, dataSourceName.value, md.database, md.schema);
        client.SetDataSourcePermissions(dataSourceId, [ownerId], [devId], "USE");
        if !LdmExists(layout) {
          client.GenerateLdmAndApplyToWorkspace(dataSourceId, workspaceId, md);
        }
        outcome := StepDone;
    }

    /**
     * The filter loop of `provision`: each declared filter is added in order; the
     * first `ValueError` ends the loop and is handed back to be raised.
     */
    method ApplyUserDataFilters(filters: seq<UserDataFilter>, workspaceId: string) returns (raised: Option<PyException>)
      requires workspaceId in client.workspaces
      modifies client
      ensures (client.State(), raised) == AddFilters(old(client.State()), filters, workspaceId, UserTable(old(client.users)))
    {
      ghost var initial := client.State();
      ghost var directory := UserTable(initial.users);
      for i := 0 to |filters|
        invariant workspaceId in client.workspaces
        invariant (client.State(), None) == AddFilters(initial, filters[..i], workspaceId, directory)
      {
        assert filters[..i + 1][..i] == filters[..i];
        var added := client.AddUserDataFilter(filters[i], workspaceId);
        if added.Failure? {
          AddFiltersStopAtRaise(initial, filters, workspaceId, directory, i + 1);
          return Some(added.error);
        }
      }
      assert filters[..|filters|] == filters;
      raised := None;
    }

    /** `provision`. */
    method Provision(c: Component, dp: DataProduct) returns (resp: Response)
      modifies client
      ensures (client.State(), resp) == Lifecycle.Provision(old(client.State()), c, dp, client.host)
    {
      var specific := c.GetSpecific();
      if specific.Failure? {
        return Invalid([SpecificSectionError] + specific.error);
      }
      var spec := specific.value;
      var workspaceId := spec.workspaceId;
      var mapped := MapDpOwnerDevGroup(dp);
      if mapped.Failure? {
        return Invalid([ProvisionMappingError] + mapped.error);
      }
      var ownerId, devId := mapped.value.0, mapped.value.1;
      var present := client.WorkspaceExists(workspaceId);
      if !present {
        var created := client.CreateWorkspace(workspaceId, spec.workspaceName, spec.parentWorkspaceId);
      }
      ghost var ensured := client.State();
      assert ensured == EnsureWorkspace(old(client.State()), spec);
      // content, data source and model only for a workspace without a parent
      if spec.parentWorkspaceId.None? {
        client.ImportWorkspace(workspaceId, ContentOf(spec.workspaceLayout));
        if HasSnowflakeDependency(FindSnowflakeDependencies(c, dp)) {
          var outcome := ProvisionDataSourceAndLdm(c, workspaceId, spec.workspaceLayout, dp, ownerId, devId);
          if outcome.StepRaised? {
            return Raised(outcome.exception);
          }
        }
      }
      ghost var populated := client.State();
      assert (populated, None) == Populate(ensured, c, spec, dp, ownerId, devId);
      client.AddOrUpdateWorkspacePermissions([ownerId], [devId], workspaceId, "MANAGE");
      client.RemoveUserDataFilters(workspaceId);
      var raised := ApplyUserDataFilters(spec.userDataFilters.GetOr([]), workspaceId);
      if raised.Some? {
        return Raised(raised.value);
      }
      var host := client.GetHost();
      resp := Provisioning(COMPLETED, "Provisioning completed",
                           Some(Link("Go to \"" + spec.workspaceName + "\" workspace on GoodData", Url(host, workspaceId))));
    }

    /** `unprovision`: the data product is not consulted. */
    method Unprovision(c: Component, dp: DataProduct, removeData: bool) returns (resp: Response)
      modifies client
      ensures (client.State(), resp) == Lifecycle.Unprovision(old(client.State()), c, removeData)
    {
      var specific := c.GetSpecific();
      if specific.Failure? {
        return Invalid([SpecificSectionError] + specific.error);
      }
      var id := specific.value.workspaceId;
      var present := client.WorkspaceExists(id);
      if !present {
        return Provisioning(COMPLETED, "Unprovisioning completed (nothing to be done)", None);
      }
      if removeData {
        client.EmptyWorkspace(id);
      }
      client.RemoveWorkspacePermissions(id);
      resp := Provisioning(COMPLETED, "Unprovisioning completed", None);
    }

    /** `reverse_provision`: only the parameters object is consulted. */
    method ReverseProvision(parameters: Option<map<string, Option<string>>>) returns (resp: Response)
      ensures resp == Lifecycle.ReverseProvision(client.State(), parameters)
    {
      if parameters.None? {
        return RequestInvalid(["Missing parameters object in reverse provisioning request"],
                              "Missing required parameters for reverse provisioning request",
                              ["Missing required parameters for reverse provisioning request"],
                              ["Specify required parameters for reverse provisioning request", ContactSolution]);
      }
      if "workspaceId" !in parameters.value {
        return Raised(KeyError("workspaceId"));
      }
      var id := parameters.value["workspaceId"];
      if id.None? || id.value == "" {
        return RequestInvalid(["Missing workspaceId in reverse provisioning request"],
                              "Missing required parameter workspaceId for reverse provisioning request",
                              ["Missing required parameter workspaceId for reverse provisioning request"],
                              ["Specify workspaceId for reverse provisioning request", ContactSolution]);
      }
      var present := client.WorkspaceExists(id.value);
      if present {
        var content := client.ExportWorkspace(id.value);
        return ReverseProvisioned(COMPLETED, "Reverse provisioning completed", [(LayoutKey, content)]);
      }
      var message := "Workspace " + id.value + " does not exist";
      resp := RequestInvalid([message], message, [message], ["Ensure the workspace id provided is correct", ContactSolution]);
    }

    /** `update_acl`. */
    method UpdateAcl(c: Component, dp: DataProduct, refs: seq<string>) returns (resp: Response)
      modifies client
      ensures (client.State(), resp) == Lifecycle.UpdateAcl(old(client.State()), c, dp, refs)
    {
      var specific := c.GetSpecific();
      if specific.Failure? {
        return Invalid([SpecificSectionError] + specific.error);
      }
      var id := specific.value.workspaceId;
      var present := client.WorkspaceExists(id);
      if !present {
        return Provisioning(FAILED, "Update ACL failed, workspace " + id + " does not exist.", None);
      }
      client.RemoveWorkspacePermissions(id);
      var mapped := MapDpOwnerDevGroup(dp);
      if mapped.Failure? {
        return Invalid([AclMappingError] + mapped.error);
      }
      client.AddOrUpdateWorkspacePermissions([mapped.value.0], [mapped.value.1], id, "MANAGE");

      var userRefs := WithPrefix(refs, "user:");
      var mappedUsers := client.MapUsers(userRefs);
      var validUsers := ResolvedIds(mappedUsers);
      var invalidUsers := UnresolvedRefs(mappedUsers);

      var groupRefs := WithPrefix(refs, "group:");
      var mappedGroups := client.MapGroups(groupRefs);
      var validGroups := ResolvedIds(mappedGroups);
      var invalidGroups := UnresolvedRefs(mappedGroups);

      assert ConsumerMapping(validUsers, invalidUsers, validGroups, invalidGroups)
          == MapConsumers(UserTable(old(client.users)), GroupTable(old(client.groups)), refs);
      client.AddOrUpdateWorkspacePermissions(validUsers, validGroups, id, "VIEW");
      if |invalidUsers| == 0 && |invalidGroups| == 0 {
        return Provisioning(COMPLETED, "Update ACL completed", None);
      }
      resp := Provisioning(FAILED, FailedAclMessage(invalidUsers, invalidGroups), None);
    }
  }
}
