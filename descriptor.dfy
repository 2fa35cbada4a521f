/**
 * The parts of a data-product descriptor the provisioner reads: components with
 * their hierarchical ids, kinds, dependencies and specific sections, and the
 * GoodData output port's specific section (workspace id and name, layout, parent,
 * user-data filters).
 *
 * Parsing the free-form specific section is an external step; a component carries
 * its outcome against each schema the provisioner parses it with.
 */
module Descriptor {
  import opened Wrappers
  import opened Snowflake

  /** An uninterpreted piece of declarative JSON (dashboards, metrics, ...). */
  datatype Blob = Blob(json: string)

  /** A declarative logical data model: datasets and date instances. */
  datatype DeclarativeLdm = DeclarativeLdm(datasets: seq<Blob>, dateInstances: seq<Blob>)

  /** `workspaceLayout`: the declarative workspace content a descriptor carries. */
  datatype WorkspaceLayout = WorkspaceLayout(ldm: Option<DeclarativeLdm>, analytics: Option<Blob>)

  /** A row-level filter restricting what one user sees (`labelId` is the source's `label`); the operator defaults to "=". */
  datatype UserDataFilter = UserDataFilter(
    user: string, labelId: string, value: string, id: string, title: string, operator: Option<string>)

  /** The specific section of a GoodData output port. */
  datatype GoodDataSpecific = GoodDataSpecific(
    workspaceId: string,
    workspaceName: string,
    workspaceLayout: WorkspaceLayout,
    parentWorkspaceId: Option<string>,
    userDataFilters: Option<seq<UserDataFilter>>)

  /** The outcome of parsing one specific section against each schema the provisioner uses. */
  datatype SpecificSection = SpecificSection(
    asGoodData: Result<GoodDataSpecific, seq<string>>,
    asStorageArea: Result<StorageAreaSpecific, seq<string>>,
    asOutputPort: Result<OutputPortSpecific, seq<string>>)

  datatype ComponentKind = OutputPortKind | StorageAreaKind | WorkloadKind

  /** A component: `id` is colon-delimited, e.g. `urn:dmb:cmp:<domain>:<product>:<major>:<name>`. */
  datatype Component = Component(
    id: string,
    name: string,
    kind: ComponentKind,
    useCaseTemplateId: string,
    dependsOn: seq<string>,
    fullyQualifiedName: Option<string>,
    dataContractSchema: Option<seq<Column>>,
    specific: SpecificSection)
  {
    /** `GoodDataOutputPort.get_specific`. */
    function GetSpecific(): Result<GoodDataSpecific, seq<string>> { specific.asGoodData }
  }

  datatype DataProduct = DataProduct(dataProductOwner: string, devGroup: string, components: seq<Component>)

  /** The first component with the given id, if any. */
  function FindComponent(components: seq<Component>, id: string): (r: Option<Component>)
    ensures r.Some? <==> exists i :: 0 <= i < |components| && components[i].id == id
    ensures r.Some? ==> r.value.id == id && r.value in components
    ensures r.Some? ==>
      exists i :: 0 <= i < |components| && components[i] == r.value && (forall j :: 0 <= j < i ==> components[j].id != id)
    decreases |components|
  {
    if components == [] then None
    else if components[0].id == id then Some(components[0])
    else
      var r := FindComponent(components[1..], id);
      if r.Some? then
        ghost var i :|
          0 <= i < |components[1..]| && components[1..][i] == r.value && (forall j :: 0 <= j < i ==> components[1..][j].id != id);
        assert components[i + 1] == r.value;
        r
      else r
  }

  /** `DataProduct.get_component_by_id`. */
  function GetComponentById(dp: DataProduct, id: string): Option<Component>
  {
    FindComponent(dp.components, id)
  }

  /**
   * `DataProduct.get_typed_component_by_id` for the two Snowflake classes: the
   * component with that id seen as a storage area or as an output port. The output
   * port class requires a data contract; without one there is no typed component.
   */
  function GetTypedSnowflakeComponent(dp: DataProduct, id: string, asStorage: bool): (r: Option<SnowflakeComponent>)
    ensures r.Some? ==> r.value.id == id
    ensures r.Some? ==> r.value.SnowflakeStorageArea? == asStorage
  {
    match GetComponentById(dp, id)
    case None => None
    case Some(c) =>
      if asStorage then Some(SnowflakeStorageArea(c.id, c.name, c.specific.asStorageArea))
      else if c.dataContractSchema.Some? then
        Some(SnowflakeOutputPort(c.id, c.name, c.dataContractSchema.value, c.specific.asOutputPort))
      else None
  }
}
