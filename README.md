# GoodData specific provisioner — a Dafny model

The GoodData specific provisioner turns a data product's GoodData output port into a
GoodData workspace. It handles four lifecycle requests:

- **Provision.** It creates the workspace, with its name and parent, when it does not
  exist yet; an existing workspace keeps its name and parent. For a workspace without
  a parent, it imports the declared layout. It then creates a
  Snowflake data source from the port's single Snowflake dependency, grants USE on
  that data source to the data-product owner and the dev group, and generates the
  logical data model (LDM) from a scan unless the layout already has one. Finally it
  grants MANAGE to the owner and the dev group, and replaces the workspace's
  user-data filters with the declared ones.
- **Unprovision.** It optionally empties the workspace and strips every workspace
  permission.
- **Update ACL.** It strips the permissions, grants MANAGE again to the owner and the
  dev group, and grants VIEW to every `user:` and `group:` reference the platform
  knows. It reports FAILED when any reference is unknown.
- **Reverse provision.** It exports an existing workspace's layout.

The model has three layers:

- **Pure specifications.** `Remote` gives the platform state (`RemoteState`) and one
  pure transition per client call. `Lifecycle` gives each lifecycle operation as a
  pure function from a state to a new state and a response, with the lemmas that state
  what the operations promise.
- **The client.** `Client.GoodDataClient` is a class whose fields are the platform's
  workspaces, data sources, per-principal data-source permissions, users, groups and
  warehouse tables. Each method is proved to move `State()` exactly as the matching
  `Remote` transition does. The loops of `set_data_source_permissions`,
  `remove_user_data_filters`, `map_users` and `map_groups` are loops here too, with
  their invariants.
- **The service.** `Service.GoodDataService` drives a client. Each method is proved
  to leave the platform, and to answer, exactly as the `Lifecycle` function does.

Around these layers are the value types and helpers:

- The descriptor (`Descriptor`) and the Snowflake sections and metadata (`Snowflake`).
- The pure helpers for names and identifiers (`Naming`).
- The permission list arithmetic (`Permissions`).
- The identity tables (`Identity`).
- The Python string built-ins they rely on (`Text`): `split`, `join`, slicing,
  `replace`, `upper`, `title` and `str`.

Python semantics the source relies on are modelled explicitly:

- **Truth values.** A validation-error object is true, and a list is true when it is
  non-empty.
- **Exceptions.** The exceptions that are part of the logic are modelled as values:
  `IndexError` on a short component id or an empty match list, `KeyError` on a
  missing `workspaceId` parameter, and `ValueError` on an unmapped filter user. The
  typed component lookup lives in `data_product_descriptor.py`, which is not part of
  this model; the model assumes that when it finds no Snowflake component, reading
  the metadata of its `None` result raises `AttributeError`.
- **Dictionary order.** Dictionaries keep insertion order, and a repeated key keeps
  its first position.
- **Last key wins.** When the identity tables are built, the last user or group with a
  key overwrites the earlier ones.

The data-source id keeps every segment of the component id from the fourth on, so
it includes the component's own name (gooddata_service.py:304-307). For example,
`urn:dmb:cmp:acme:sales:1:sink` with dependency `urn:dmb:cmp:acme:sales:1:storage:raw`
gives `acme_sales_1_sink_datasource_storage_raw`.

## Model

| member | source | states |
|---|---|---|
| Text.Split | gooddata-sp/gooddata_sp/service/gooddata_service.py:304-306 | `str.split` on one character yields at least one piece, and no piece contains the separator |
| Text.JoinSplit | gooddata-sp/gooddata_sp/service/gooddata_service.py:304-307 | joining the pieces of a split with the same separator gives back the original string |
| Text.SplitJoin | gooddata-sp/gooddata_sp/service/gooddata_service.py:304-307 | splitting a join gives back the pieces, when no piece contains the separator |
| Text.SplitPiecesWithin | gooddata-sp/gooddata_sp/service/gooddata_service.py:304-307 | a character absent from an id is absent from every segment of it |
| Text.Drop | gooddata-sp/gooddata_sp/service/gooddata_service.py:304-306 | a slice `xs[n:]` is empty when `n` is past the end (never an error), and otherwise holds the elements from `n` on |
| Text.Replace | gooddata-sp/gooddata_sp/service/gooddata_service.py:369 | `replace` on one character changes exactly the occurrences of that character and keeps the length |
| Text.Upper | gooddata-sp/gooddata_sp/client/gooddata_client.py:102-106 | `upper` maps each character to its upper-case form and keeps the length |
| Text.TitleFrom | gooddata-sp/gooddata_sp/service/gooddata_service.py:369 | the title-casing of a suffix, position by position, given whether a letter came before it |
| Text.Title | gooddata-sp/gooddata_sp/service/gooddata_service.py:369 | `title` upper-cases the first letter of every run of letters and lower-cases the rest, keeping other characters |
| Text.TitleCharKeepsLetters | gooddata-sp/gooddata_sp/service/gooddata_service.py:369 | title-casing turns letters into letters and keeps everything else, and applying it twice to a character changes nothing more |
| Text.TitleIdempotent | gooddata-sp/gooddata_sp/service/gooddata_service.py:369 | title-casing a title-cased string changes nothing |
| Text.NatToString | gooddata-sp/gooddata_sp/service/gooddata_service.py:404 | `str` of a count is a non-empty string of decimal digits that denotes the count, with a leading zero only for zero |
| Text.DigitChar | gooddata-sp/gooddata_sp/service/gooddata_service.py:404 | each digit character denotes its own value |
| Snowflake.SnowflakeComponent.GetSnowflakeMetadata | gooddata-sp/gooddata_sp/models/snowflake.py:64-98 | a parse failure of the specific section is returned unchanged and is the only failure; a storage area yields one TABLE per declared table in order, and an output port yields exactly one VIEW carrying the data contract's schema; both copy the database and schema |
| Snowflake.TableObjects | gooddata-sp/gooddata_sp/models/snowflake.py:69-72 | one TABLE object per declared table, in order, with the table's name and schema |
| Snowflake.OutputPortIgnoresTableName | gooddata-sp/gooddata_sp/models/snowflake.py:85-98 | an output port's declared `tableName` has no influence on its metadata |
| Descriptor.FindComponent | gooddata-sp/gooddata_sp/service/gooddata_service.py:379 | the lookup by id finds a component exactly when one has that id, and then finds the first such component |
| Descriptor.GetTypedSnowflakeComponent | gooddata-sp/gooddata_sp/service/gooddata_service.py:413-417 | the typed lookup yields a component with the requested id and of the requested class (storage area or output port) |
| Permissions.Unlisted | gooddata-sp/gooddata_sp/client/gooddata_client.py:246-250 | the existing permissions kept are exactly those whose assignee id is not listed, in their original order |
| Permissions.MergeWorkspacePermissions | gooddata-sp/gooddata_sp/client/gooddata_client.py:245-272 | the user grants come first, then the group grants, both in order, then the unlisted existing permissions; hierarchy permissions are kept; membership is exactly grants plus unlisted existing permissions |
| Permissions.StripWorkspacePermissions | gooddata-sp/gooddata_sp/client/gooddata_client.py:297-301 | removing workspace permissions leaves no permission and keeps the hierarchy permissions |
| Permissions.UnlistedAppend | gooddata-sp/gooddata_sp/client/gooddata_client.py:246-250 | the filter works entry by entry: it distributes over concatenation |
| Permissions.UnlistedTwice | gooddata-sp/gooddata_sp/client/gooddata_client.py:246-250 | filtering twice by the same ids is filtering once |
| Permissions.UnlistedOfListed | gooddata-sp/gooddata_sp/client/gooddata_client.py:246-250 | entries whose assignees are all listed are all dropped |
| Permissions.MergeKeepsUnlisted | gooddata-sp/gooddata_sp/client/gooddata_client.py:229-282 | the entries of principals in neither list come out of the upsert exactly as they went in, in order |
| Permissions.MergeWorkspacePermissionsIdempotent | gooddata-sp/gooddata_sp/client/gooddata_client.py:229-282 | granting the same level to the same principals a second time changes nothing |
| Permissions.CountAssigneeGrants | gooddata-sp/gooddata_sp/client/gooddata_client.py:251-263 | the generated grants name each listed principal of the right type exactly once, when the ids are distinct |
| Permissions.MergeGrantsEachPrincipalOnce | gooddata-sp/gooddata_sp/client/gooddata_client.py:245-272 | when neither id list repeats an id, each granted principal appears exactly once in the merged list, at the granted level |
| Permissions.OtherDataSources | gooddata-sp/gooddata_sp/client/gooddata_client.py:156-159 | a principal's data-source permissions kept are exactly those for other data sources |
| Permissions.OtherDataSourcesAppend | gooddata-sp/gooddata_sp/client/gooddata_client.py:156-159 | the kept entries keep their original order: dropping distributes over concatenation |
| Permissions.UpsertDataSourcePermission | gooddata-sp/gooddata_sp/client/gooddata_client.py:155-169 | after the upsert the principal holds exactly one assignment for the data source, at the given level and last in the list; the other data sources' assignments and the workspace permissions are kept |
| Permissions.OtherDataSourcesTwice | gooddata-sp/gooddata_sp/client/gooddata_client.py:156-159 | dropping one data source's assignments twice is dropping them once |
| Permissions.OtherDataSourcesDropsLast | gooddata-sp/gooddata_sp/client/gooddata_client.py:156-165 | dropping the data source from an upserted list removes exactly the appended assignment |
| Permissions.UpsertDataSourcePermissionIdempotent | gooddata-sp/gooddata_sp/client/gooddata_client.py:149-174 | upserting the same data-source permission twice gives the same assignments as once |
| Identity.IndexTableKeys | gooddata-sp/gooddata_sp/client/gooddata_client.py:430-442 | a key is in the identity table exactly when some entry carries it |
| Identity.IndexTableFromEntries | gooddata-sp/gooddata_sp/client/gooddata_client.py:430-442 | every mapping of the identity table comes from one of the entries |
| Identity.IndexTableLastWins | gooddata-sp/gooddata_sp/client/gooddata_client.py:430-442 | the table maps a key to the id of the last entry carrying it |
| Identity.Resolve | gooddata-sp/gooddata_sp/client/gooddata_client.py:445-458 | the resolution dictionary has exactly the requested references as keys, each once, and each maps to the table's id for it or to `None` |
| Identity.GetResolve | gooddata-sp/gooddata_sp/client/gooddata_client.py:445-458 | `get` on the resolution gives the table's answer for every requested reference, and `None` for one not requested |
| Identity.GetFirst | gooddata-sp/gooddata_sp/client/gooddata_client.py:456 | `get` finds nothing for an absent reference and otherwise the value recorded for it |
| Identity.ResolvedIds | gooddata-sp/gooddata_sp/service/gooddata_service.py:266 | the valid ids are exactly the non-`None` values of the resolution |
| Identity.UnresolvedRefs | gooddata-sp/gooddata_sp/service/gooddata_service.py:267 | the invalid references are exactly the keys whose value is `None` |
| Identity.ResolutionSplits | gooddata-sp/gooddata_sp/service/gooddata_service.py:264-272 | resolution splits the requested references into the ids of the known ones and the unknown references themselves |
| Identity.UnresolvedExactlyUnknown | gooddata-sp/gooddata_sp/service/gooddata_service.py:264-272 | a requested reference is reported invalid exactly when the table lacks it |
| Identity.ResolvedExactlyKnown | gooddata-sp/gooddata_sp/service/gooddata_service.py:264-272 | an id is reported valid exactly when the table gives it for some requested reference |
| Identity.UserReferenceMapping | gooddata-sp/gooddata_sp/client/gooddata_client.py:430-447 | a reference is mapped exactly when some user with an email has that key |
| Identity.UserReferenceLastWins | gooddata-sp/gooddata_sp/client/gooddata_client.py:430-442 | of several users sharing a key, the last in the platform's list is the one mapped |
| Identity.GroupReferenceMapping | gooddata-sp/gooddata_sp/client/gooddata_client.py:464-481 | a reference is mapped exactly when some group with a name has that key |
| Identity.GroupReferenceLastWins | gooddata-sp/gooddata_sp/client/gooddata_client.py:464-476 | of several groups sharing a name, the last in the platform's list is the one mapped |
| Naming.DataSourceIdSegments | gooddata-sp/gooddata_sp/service/gooddata_service.py:300-308 | for ids without `_`, the data-source id splits back into the component id's segments from the fourth on, `datasource`, and the dependency id's segments from the seventh on |
| Naming.RebuildName | gooddata-sp/gooddata_sp/service/gooddata_service.py:367-369 | the rebuilt name has the same length and no dash; a space stands exactly where a dash or space was; every run of letters starts upper case and continues lower case; other characters are kept |
| Naming.RebuildNameIdempotent | gooddata-sp/gooddata_sp/service/gooddata_service.py:367-369 | rebuilding an already rebuilt name changes nothing |
| Naming.FullyQualifiedName | gooddata-sp/gooddata_sp/service/gooddata_service.py:318-324 | an id with fewer than six segments raises `IndexError`, and only then; otherwise the name ends with ` - ` and the component's name |
| Naming.FullyQualifiedNameOfSegments | gooddata-sp/gooddata_sp/service/gooddata_service.py:318-324 | for an id written as colon-joined segments, the name is the rebuilt domain, the rebuilt product, `V` and the major version, then the component's name |
| Naming.DataSourceName | gooddata-sp/gooddata_sp/service/gooddata_service.py:310-316 | the name is the component's declared fully qualified name, or the derived one when none is declared, followed by ` - Data Source - ` and the dependency's name; it fails only when the derived name is needed and raises |
| Naming.SnowflakeDependencies | gooddata-sp/gooddata_sp/service/gooddata_service.py:379-389 | the matches are exactly the declared dependencies that resolve to a component of the data product that is a Snowflake output port or storage area by kind and template |
| Naming.SnowflakeDependenciesAppend | gooddata-sp/gooddata_sp/service/gooddata_service.py:379-389 | the matches come in declaration order: the lookup distributes over concatenation of the dependency lists |
| Naming.FindSnowflakeDependencies | gooddata-sp/gooddata_sp/service/gooddata_service.py:371-389 | no declared dependency is an error naming the component, and only that; otherwise the Snowflake dependencies, possibly none |
| Naming.ExtractSnowflakeDependency | gooddata-sp/gooddata_sp/service/gooddata_service.py:391-423 | no dependency and more than one match are validation errors with their messages; no match raises `IndexError`, and only then |
| Naming.ExtractSingleMatch | gooddata-sp/gooddata_sp/service/gooddata_service.py:406-423 | with a single match, the "not found" and "neither kind" branches cannot occur: the result is the typed lookup of that match, as a storage area exactly when it is one |
| Naming.ExtractTypedPresence | gooddata-sp/gooddata_sp/service/gooddata_service.py:406-423 | a single storage-area match always yields its typed component; a single output-port match yields it exactly when the port has a data contract |
| Remote.PutWorkspace | gooddata-sp/gooddata_sp/client/gooddata_client.py:208-213 | writing one workspace changes that workspace and nothing else on the platform |
| Remote.CreateWorkspace | gooddata-sp/gooddata_sp/client/gooddata_client.py:208-213 | create-or-update: an existing workspace keeps its content, permissions and filters and gets the new name and parent; a new one starts empty; nothing else changes |
| Remote.ImportWorkspace | gooddata-sp/gooddata_sp/client/gooddata_client.py:218-221 | the workspace's content is replaced, and nothing else changes |
| Remote.EmptyWorkspace | gooddata-sp/gooddata_sp/client/gooddata_client.py:223-224 | the workspace's content becomes the empty content (no datasets, no date instances, no analytics objects), and nothing else changes |
| Remote.AddOrUpdateWorkspacePermissions | gooddata-sp/gooddata_sp/client/gooddata_client.py:229-282 | the workspace's permissions become the merge of the existing ones with the new grants, and nothing else changes |
| Remote.RemoveWorkspacePermissions | gooddata-sp/gooddata_sp/client/gooddata_client.py:284-311 | the workspace's permissions are stripped, the hierarchy permissions kept, and nothing else changes |
| Remote.CreateDataSource | gooddata-sp/gooddata_sp/client/gooddata_client.py:55-78 | the data source with that id is created or replaced with the name, database and schema, and nothing else changes |
| Remote.GrantDataSource | gooddata-sp/gooddata_sp/client/gooddata_client.py:149-174 | after the per-principal read-modify-write, exactly the listed principals are added to the permission records |
| Remote.GrantDataSourceNext | gooddata-sp/gooddata_sp/client/gooddata_client.py:149-174 | one more principal of the loop reads back its permissions as the loop left them and upserts the data source |
| Remote.GrantDataSourceSingle | gooddata-sp/gooddata_sp/client/gooddata_client.py:149-174 | for a single principal the loop upserts that principal's entry and leaves every other entry as it was |
| Remote.GrantDataSourceListed | gooddata-sp/gooddata_sp/client/gooddata_client.py:149-174 | every listed principal ends with the upsert of what it held before the loop, even when it is listed twice |
| Remote.GrantDataSourceUnlisted | gooddata-sp/gooddata_sp/client/gooddata_client.py:149-174 | every principal not listed keeps what it held |
| Remote.SetDataSourcePermissions | gooddata-sp/gooddata_sp/client/gooddata_client.py:136-201 | only the users' and groups' data-source permissions change; every listed user and group ends with the upsert of what it held, and every other principal keeps what it held |
| Remote.FilterTables | gooddata-sp/gooddata_sp/client/gooddata_client.py:101-107 | the scanned tables kept are exactly those whose upper-cased id is the upper-cased name of some metadata object |
| Remote.FilterTablesAppend | gooddata-sp/gooddata_sp/client/gooddata_client.py:105-107 | the filter works table by table, so the scan order is kept |
| Remote.GenerateLdm | gooddata-sp/gooddata_sp/client/gooddata_client.py:80-134 | only the workspace's logical model changes: it becomes the model generated from the scan of the data source, filtered by the metadata's objects, and the analytics part is kept |
| Remote.KeepFilters | gooddata-sp/gooddata_sp/client/gooddata_client.py:388-393 | the filters left after deletions by id are exactly those whose id is missing or was not deleted |
| Remote.KeepFiltersTwice | gooddata-sp/gooddata_sp/client/gooddata_client.py:388-393 | deleting by one set of ids and then another is deleting by their union |
| Remote.KeepFiltersNone | gooddata-sp/gooddata_sp/client/gooddata_client.py:388-393 | deleting no id keeps every filter |
| Remote.KeepFiltersUnmatched | gooddata-sp/gooddata_sp/client/gooddata_client.py:370-374 | deleting an id that no filter carries changes nothing |
| Remote.IdlessFilters | gooddata-sp/gooddata_sp/client/gooddata_client.py:388-400 | what deleting every listed filter leaves is exactly the filters without an id |
| Remote.PutFilters | gooddata-sp/gooddata_sp/client/gooddata_client.py:353-355 | writing a workspace's filters changes those filters and nothing else |
| Remote.RemoveUserDataFilters | gooddata-sp/gooddata_sp/client/gooddata_client.py:383-400 | the workspace's filters become those without an id, in their order, so no filter carries an id afterwards; nothing else changes |
| Remote.KeepNextListed | gooddata-sp/gooddata_sp/client/gooddata_client.py:388-393 | one more listed filter adds its id to the deleted set, and one without an id adds nothing |
| Remote.PutFiltersTwice | gooddata-sp/gooddata_sp/client/gooddata_client.py:391-393 | writing a workspace's filters twice leaves the second list |
| Remote.DeleteUserDataFilter | gooddata-sp/gooddata_sp/client/gooddata_client.py:371-373 | every filter carrying the id is deleted, the others are kept, and nothing else changes |
| Remote.RemoveIfExistsIsDelete | gooddata-sp/gooddata_sp/client/gooddata_client.py:359-381 | guarding the deletion by an existence check makes no difference to the outcome |
| Remote.MaqlInjective | gooddata-sp/gooddata_sp/client/gooddata_client.py:332-343 | with the same operator, a MAQL condition determines its label and value, for labels without `}` |
| Remote.UpsertFilter | gooddata-sp/gooddata_sp/client/gooddata_client.py:353-355 | create-or-update by id: the new filter is present, it is the only one with its id, and filters with other ids are kept |
| Remote.UpsertFilterIds | gooddata-sp/gooddata_sp/client/gooddata_client.py:353-355 | an upsert adds the filter's id to the ids present and removes none |
| Remote.AddUserDataFilter | gooddata-sp/gooddata_sp/client/gooddata_client.py:313-357 | an unmapped filter user raises `ValueError` with its message and changes nothing, and only then; otherwise the filter built from the descriptor's id and title, the MAQL of its label, operator and value, and the mapped user becomes the only filter with that id, and the filters with other ids are as before |
| Lifecycle.UrlInjective | gooddata-sp/gooddata_sp/service/gooddata_service.py:297-298 | different workspaces get different links from the same host |
| Lifecycle.MapOwnerDevGroup | gooddata-sp/gooddata_sp/service/gooddata_service.py:425-440 | succeeds exactly when the owner and the dev group are both known, with their ids; an unknown owner is reported alone, and an unknown dev group is reported only after a known owner |
| Lifecycle.GrantUse | gooddata-sp/gooddata_sp/service/gooddata_service.py:349-353 | only data-source permissions change: the owner and the dev group each end with one USE assignment on the data source, after their other data-source assignments, and every other user and group keeps its permissions |
| Lifecycle.GenerateUnlessPresent | gooddata-sp/gooddata_sp/service/gooddata_service.py:355-365 | a layout that already has datasets or date instances leaves the workspace unchanged; otherwise the model is generated from the scan |
| Lifecycle.CreateGrantGenerate | gooddata-sp/gooddata_sp/service/gooddata_service.py:341-365 | the data source is created with the Snowflake database and schema, owner and dev group get USE and every other principal keeps its permissions, the model is generated unless present, and users, groups, warehouse and other workspaces are untouched |
| Lifecycle.DataSourceStep | gooddata-sp/gooddata_sp/service/gooddata_service.py:326-365 | a step that rejects or raises leaves the platform unchanged; no step adds or removes a workspace or changes the users |
| Lifecycle.DataSourceStepDone | gooddata-sp/gooddata_sp/service/gooddata_service.py:333-365 | the step completes exactly when the single dependency yields a typed component whose metadata reads and whose data-source name builds, and then creates the data source named after the component and the dependency |
| Lifecycle.EnsureWorkspace | gooddata-sp/gooddata_sp/service/gooddata_service.py:81-87 | afterwards the workspace exists; an existing workspace is left untouched, and a missing one is created with the declared name and parent |
| Lifecycle.Populate | gooddata-sp/gooddata_sp/service/gooddata_service.py:89-107 | a child workspace is left as it is; no workspace is added or removed and the users are unchanged |
| Lifecycle.AddOne | gooddata-sp/gooddata_sp/service/gooddata_service.py:120-122 | `ValueError` is raised exactly when the filter's user is unmapped, and then nothing changes; otherwise the filter built for the mapped user becomes the only one with its id and the filters with other ids are as before; only the workspace's filters change |
| Lifecycle.FirstUnmappedIff | gooddata-sp/gooddata_sp/service/gooddata_service.py:118-122 | the filter loop raises exactly when some declared filter's user is unmapped |
| Lifecycle.FirstUnmappedSpec | gooddata-sp/gooddata_sp/service/gooddata_service.py:118-122 | when the filter loop raises, it is with the error of the first declared filter whose user is unmapped, all earlier users being mapped |
| Lifecycle.AddFilters | gooddata-sp/gooddata_sp/service/gooddata_service.py:118-124 | the loop raises exactly the first unmapped user's error; when it completes, the workspace's filter ids are the ones it had plus the declared ids; only that workspace's filters change |
| Lifecycle.AddFiltersStopAtRaise | gooddata-sp/gooddata_sp/service/gooddata_service.py:118-122 | once a prefix of the filters raises, the later filters are never reached |
| Lifecycle.AddFiltersKeepsOthers | gooddata-sp/gooddata_sp/service/gooddata_service.py:118-124 | when the loop completes, the filters whose id was not declared, or that have none, are the ones the workspace had |
| Lifecycle.AddFiltersStores | gooddata-sp/gooddata_sp/service/gooddata_service.py:118-124 | when the loop completes, each declared filter that is the last with its id has a mapped user, and the filter built from it for that user is the only one with that id |
| Lifecycle.FinishEffect | gooddata-sp/gooddata_sp/service/gooddata_service.py:110-140 | the last part of provisioning changes only the workspace's permissions and filters; when it completes, the owner and the dev group hold MANAGE exactly once each, the filters without an id are the ones the workspace had, the filter ids are exactly the declared ones, and each declared id is held by exactly one filter, built from the last declared filter with that id for its mapped user |
| Lifecycle.ProvisionRejectsBeforeMutation | gooddata-sp/gooddata_sp/service/gooddata_service.py:67-79 | an unparsable specific section, an unknown owner or an unknown dev group is answered with the validation error before anything on the platform changes |
| Lifecycle.ProvisionCompleted | gooddata-sp/gooddata_sp/service/gooddata_service.py:62-140 | provisioning never reports FAILED; when it completes, the workspace exists, the link is the host's dashboard of that workspace, owner and dev group hold MANAGE exactly once each, the filter ids are exactly the declared ones, and each is held by exactly one filter, built from the last declared filter with that id for its mapped user |
| Lifecycle.ProvisionChildWorkspace | gooddata-sp/gooddata_sp/service/gooddata_service.py:89-107 | a workspace with a parent gets no content, no data source and no model: its content, the data sources and the data-source permissions stay as they were |
| Lifecycle.ProvisionWithoutDependencies | gooddata-sp/gooddata_sp/service/gooddata_service.py:97-105 | a component declaring no dependency still enters the data-source step, because the error object is true; the step's error is dropped and the platform only receives the imported layout |
| Lifecycle.PopulateDropsStepErrors | gooddata-sp/gooddata_sp/service/gooddata_service.py:97-105 | a validation error of the data-source step is dropped: provisioning continues as if the step had done nothing |
| Lifecycle.UnprovisionEffect | gooddata-sp/gooddata_sp/service/gooddata_service.py:142-174 | a missing workspace changes nothing and completes with "nothing to be done"; an existing one loses every permission, keeps its hierarchy permissions, is emptied exactly when data removal is requested, and nothing else changes |
| Lifecycle.ReverseProvisionOutcomes | gooddata-sp/gooddata_sp/service/gooddata_service.py:176-233 | completes exactly when a non-empty workspace id of an existing workspace is given, returning that workspace's content under the layout key alone; a missing key raises `KeyError`; every other case is a request error |
| Lifecycle.WithPrefix | gooddata-sp/gooddata_sp/service/gooddata_service.py:264 | the references kept are exactly those starting with the prefix |
| Lifecycle.WithPrefixAppend | gooddata-sp/gooddata_sp/service/gooddata_service.py:264 | the prefix filter keeps the references' order |
| Lifecycle.MapConsumers | gooddata-sp/gooddata_sp/service/gooddata_service.py:264-272 | the invalid users and groups are exactly the prefixed references the directories lack; the valid ids are exactly the directories' ids for the prefixed references they know |
| Lifecycle.GrantConsumers | gooddata-sp/gooddata_sp/service/gooddata_service.py:274-290 | every valid user and group gets VIEW; the status is FAILED exactly when some reference is invalid; no workspace is added or removed |
| Lifecycle.UpdateAclAbsentWorkspace | gooddata-sp/gooddata_sp/service/gooddata_service.py:291-295 | a missing workspace is reported FAILED with its message, and nothing changes |
| Lifecycle.UpdateAclMappingFailureLeavesNoPermissions | gooddata-sp/gooddata_sp/service/gooddata_service.py:248-255 | the permissions are stripped before the owner and dev group are mapped, so a failed mapping leaves the workspace with no permission at all |
| Lifecycle.UpdateAclStatus | gooddata-sp/gooddata_sp/service/gooddata_service.py:264-290 | after a successful mapping, the result is FAILED exactly when some `user:` or `group:` reference is unknown, and COMPLETED otherwise |
| Lifecycle.UpdateAclViewGrants | gooddata-sp/gooddata_sp/service/gooddata_service.py:264-278 | whatever the status, every known `user:` or `group:` reference ends with VIEW on the workspace |
| Lifecycle.UpdateAclPermissions | gooddata-sp/gooddata_sp/service/gooddata_service.py:249-278 | after a successful mapping, the workspace holds exactly VIEW for every known `user:` and `group:` consumer, plus MANAGE for the owner and the dev group where no VIEW grant names the same id; its hierarchy permissions are kept, and nothing else on the platform changes |
| Lifecycle.UpdateAclState | gooddata-sp/gooddata_sp/service/gooddata_service.py:249-278 | a successful update changes only the workspace's permissions, to the stripped list with MANAGE granted to owner and dev group and then VIEW granted to the known consumers |
| Permissions.StripThenGrant | gooddata-sp/gooddata_sp/client/gooddata_client.py:245-301 | stripping, granting MANAGE to one user and one group, then granting VIEW, leaves exactly the VIEW grants and the MANAGE grants whose id no VIEW grant names; the hierarchy permissions are kept |
| Lifecycle.UpdateAclOwnerAsConsumer | gooddata-sp/gooddata_sp/service/gooddata_service.py:258-278 | an owner who is also a `user:` consumer ends with VIEW and no longer with MANAGE |
| Lifecycle.UpdateAclIgnoresOtherReferences | gooddata-sp/gooddata_sp/service/gooddata_service.py:264-272 | a reference with neither prefix changes neither the outcome nor the platform |
| Client.ResolveReferences | gooddata-sp/gooddata_sp/client/gooddata_client.py:445-458 | the resolution loop builds exactly the resolution dictionary of the references through the table |
| Client.GrantEach | gooddata-sp/gooddata_sp/client/gooddata_client.py:149-174 | the per-principal loop gives exactly the permission records of the read-modify-write specification |
| Client.GoodDataClient.constructor | gooddata-sp/gooddata_sp/client/gooddata_client.py:417-418 | a client of the given host whose platform is the given state |
| Client.GoodDataClient.GetHost | gooddata-sp/gooddata_sp/client/gooddata_client.py:417-418 | returns the configured host |
| Client.GoodDataClient.CreateSnowflakeDatasource | gooddata-sp/gooddata_sp/client/gooddata_client.py:55-78 | the platform moves as the data-source create-or-update says, and the data source read back is the one stored |
| Client.GoodDataClient.GenerateLdmAndApplyToWorkspace | gooddata-sp/gooddata_sp/client/gooddata_client.py:80-134 | the platform moves as the LDM generation says |
| Client.GoodDataClient.SetDataSourcePermissions | gooddata-sp/gooddata_sp/client/gooddata_client.py:136-201 | the two loops move the platform as the data-source permission specification says |
| Client.GoodDataClient.WorkspaceExists | gooddata-sp/gooddata_sp/client/gooddata_client.py:203-206 | true exactly when the platform has the workspace |
| Client.GoodDataClient.CreateWorkspace | gooddata-sp/gooddata_sp/client/gooddata_client.py:208-213 | the platform moves as the workspace create-or-update says, and the workspace read back is the one stored |
| Client.GoodDataClient.ExportWorkspace | gooddata-sp/gooddata_sp/client/gooddata_client.py:215-216 | returns the workspace's declarative content |
| Client.GoodDataClient.ImportWorkspace | gooddata-sp/gooddata_sp/client/gooddata_client.py:218-221 | the platform moves as the content import says |
| Client.GoodDataClient.EmptyWorkspace | gooddata-sp/gooddata_sp/client/gooddata_client.py:223-224 | the platform moves as emptying the workspace says |
| Client.GoodDataClient.AddOrUpdateWorkspacePermissions | gooddata-sp/gooddata_sp/client/gooddata_client.py:229-282 | the platform moves as the permission merge says |
| Client.GoodDataClient.RemoveWorkspacePermissions | gooddata-sp/gooddata_sp/client/gooddata_client.py:284-311 | the platform moves as stripping the permissions says |
| Client.GoodDataClient.DeleteUserDataFilter | gooddata-sp/gooddata_sp/client/gooddata_client.py:391-393 | the platform moves as a deletion by id says |
| Client.GoodDataClient.AddUserDataFilter | gooddata-sp/gooddata_sp/client/gooddata_client.py:313-357 | the result and the new platform are those of the filter specification, with the user table read before the call |
| Client.GoodDataClient.RemoveUserDataFilterIfExists | gooddata-sp/gooddata_sp/client/gooddata_client.py:359-381 | the platform moves as the guarded deletion says, which is the plain deletion by id |
| Client.GoodDataClient.RemoveUserDataFilters | gooddata-sp/gooddata_sp/client/gooddata_client.py:383-400 | the deletion loop moves the platform as removing every listed filter says |
| Client.GoodDataClient.MapUsers | gooddata-sp/gooddata_sp/client/gooddata_client.py:426-458 | the table loop and the resolution loop give exactly the resolution of the references through the user table |
| Client.GoodDataClient.MapGroups | gooddata-sp/gooddata_sp/client/gooddata_client.py:460-492 | the table loop and the resolution loop give exactly the resolution of the references through the group table |
| Service.GoodDataService.constructor | gooddata-sp/gooddata_sp/service/gooddata_service.py:31-32 | a service driving the given client |
| Service.GoodDataService.MapDpOwnerDevGroup | gooddata-sp/gooddata_sp/service/gooddata_service.py:425-440 | the answer is the owner and dev-group mapping of the specification |
| Service.GoodDataService.ProvisionDataSourceAndLdm | gooddata-sp/gooddata_sp/service/gooddata_service.py:326-365 | the platform and the outcome are those of the data-source step |
| Service.GoodDataService.ApplyUserDataFilters | gooddata-sp/gooddata_sp/service/gooddata_service.py:118-124 | the filter loop moves the platform, and stops with the exception, as the filter-loop specification says |
| Service.GoodDataService.Provision | gooddata-sp/gooddata_sp/service/gooddata_service.py:62-140 | the platform and the response are those of the provisioning specification |
| Service.GoodDataService.Unprovision | gooddata-sp/gooddata_sp/service/gooddata_service.py:142-174 | the platform and the response are those of the unprovisioning specification |
| Service.GoodDataService.ReverseProvision | gooddata-sp/gooddata_sp/service/gooddata_service.py:176-233 | the response is that of the reverse-provisioning specification, and the platform is not changed |
| Service.GoodDataService.UpdateAcl | gooddata-sp/gooddata_sp/service/gooddata_service.py:235-295 | the platform and the response are those of `Lifecycle.UpdateAcl`, whose resulting permission list is characterised by `Lifecycle.UpdateAclPermissions` |

## Left out

- Logging: the log calls have no effect on the outcome and are not modelled.
- Credentials, the Snowflake connection settings and the SDK's HTTP traffic are not modelled. The platform is the state held by the client. A remote error (an HTTP failure, a missing workspace the SDK would reject) is not modelled, so the client operations that act on a workspace require it to exist.
- The parsing of the YAML specific sections is an external step. A component carries the outcome of parsing its specific section against each schema: a parsed section or the validation errors.
- `data_product_descriptor.py` is not part of this model. The component and data-product shapes, and the untyped and typed lookups by id, are modelled from how the service uses them.
- `validate` and its `from_dict`/`to_dict` round trip of the workspace layout are not modelled, because they live in the SDK's declarative model classes. The layout is modelled as the content it describes.
- `delete_workspace`, `get_full_catalog`, `get_datasets`, `get_metrics`, `get_attributes` and `get_facts` are not modelled, because no lifecycle operation calls them. The same goes for `_check_dataset_name`.
- The LDM generation by the platform is opaque: the model records a generated model made from the data-source id and the filtered scan. The generation request's other fields and the PDM warnings are not modelled.
- The empty content is modelled as a workspace content whose model has no dataset and no date instance and whose analytics lists are all empty. The individual analytics lists are not modelled separately.
- `reverse_provision`'s `use_case_template_id`, `environment` and `catalog_info` parameters are not modelled, because the code never reads them. The same goes for `unprovision`'s data product.
- Parameter values of reverse provisioning are strings or null. Other JSON values are not modelled.
- Lifecycle.AddFilters: every iteration of the filter loop maps its user through the user table read before the loop. This equals the source's re-reading per filter, because nothing in the loop changes the platform's users.
- Client.GoodDataClient.SetDataSourcePermissions: the per-principal writes are computed on a local copy and stored as one update of each permission map at the end. No other party observes the intermediate states in this model.
- Client.GoodDataClient.GetHost: any normalisation of the host by the SDK's constructor is not modelled. The host is returned as configured.
- Naming.ExtractSnowflakeDependency: the more-than-one-match message lists the matching components by their ids in single quotes. The source prints `str()` of the list of component objects, whose rendering comes from the descriptor classes, which are not part of this model.
- Lifecycle.UpdateAcl: the FAILED message renders the unknown references as Python's `str()` of a list of strings, always with single quotes and no escaping. Python switches to double quotes for a string that holds a single quote, and escapes backslashes and control characters; those cases are not modelled.
- Text.Upper: upper-casing is modelled for ASCII letters only. Python's `str.upper()` also maps other Unicode letters, and can change a string's length (`ß` becomes `SS`); that is not modelled.
- Text.Title: title-casing is modelled for ASCII letters only. Python's `str.title()` treats every Unicode letter, and any cased character, as part of a word; that is not modelled.
- Concurrency between requests is not modelled.
- `main.py`, `dependencies.py`, `service.py` and `config.py` are not modelled. They hold the web layer, the dependency wiring and the configuration. Through them, `remove_data` defaults to false.
