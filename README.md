# Azure enterprise manager: permission resolution, resource ids, topology, auth and cost shaping

This project models, in Dafny, the deterministic core of a small Azure management application:
Azure Functions that resolve role assignments and effective permissions, parse and dispatch
resource ids, reshape network topology and cost query results, the Express middleware that
authenticates bearer tokens and gates routes on roles, and the React helpers that turn
those answers into graphs and display strings.

The Azure SDK clients are replaced by values: an authorization client is a map from scopes
to assignment listings and from definition ids to definitions, a network or compute client
is a map from parsed resource keys to resources, and a cost client is a map from (scope,
query) to query results. A key absent from a map is a call that rejects. The JWT verifier
is the set of tokens it accepts, each with the payload it decodes to.

In the backend helpers the log-and-skip recovery branches call `context.log.warn`, but
`context` is only a parameter of the handlers. Each such branch therefore throws a
ReferenceError, which ends the request in the handler's 500 branch. The handlers are
modelled as written (`Http.Fault.ContextNotDefined`). The evidently intended skipping
behaviour is modelled separately, in module `Corrected`; see "## Findings".

Modules:
- `Wrappers`, `Text`, `Sorting`: Option/Result; `/`-splitting and joining; the
  `/\/seg\/([^\/]+)/i` capture; code-unit string order; in-place insertion sort.
- `Http`: the three response shapes (200 body, 400 message, 500 prefix and fault).
- `AzureIds`, `Authorization`: subscription and resource-group extraction; SDK shapes.
- `EffectivePermissions`, `RoleAssignments`, `RoleDefinitions`: the permission functions.
- `ResourceDetails`, `Topology`, `TopologyGraph`: the network functions and the two graph views.
- `TokenVerification`: `verifyToken`, `authenticateRequest`, `hasRole`.
- `PropertyDisplay`, `ScopeDisplay`: the display helpers of the resource-details,
  effective-permissions and role-assignments views.
- `Costs`: the three cost functions.
- `Corrected`: the intended variants behind the findings.

## Model

| member | source | states |
|---|---|---|
| AzureIds.SubscriptionId | backend/permission_functions/get_effective_permissions/index.js:74-77 | the id never contains `/` |
| AzureIds.SubscriptionIdMeaning | backend/permission_functions/get_effective_permissions/index.js:74-77 | the id is "" exactly when no position matches `/subscriptions/` (in any case) followed by a non-`/` character |
| AzureIds.ResourceGroupOf | backend/network_functions/get_topology/index.js:69-72 | the resource group never contains `/` |
| AzureIds.ResourceGroupOfMeaning | backend/network_functions/get_topology/index.js:69-72 | the resource group is "" exactly when the `/resourceGroups/` pattern matches nowhere |
| AzureIds.SubscriptionIdIgnoresCase | azure-enterprise-manager/backend/permission_functions/get_role_assignments/index.js:65-68 | the marker is matched in any letter case, and the id is the run up to the next `/` |
| Text.CaptureIsLeftmost | azure-enterprise-manager/backend/network_functions/get_resource_details/index.js:60-63 | the capture is the maximal non-`/` run after the leftmost position where the pattern matches |
| Authorization.RoleNameOf | backend/permission_functions/get_effective_permissions/index.js:103 | the role name is never empty: the definition's name, or 'Unknown Role' when that is empty |
| EffectivePermissions.ParentScopes | backend/permission_functions/get_effective_permissions/index.js:167-181 | the stepped loop and the filter produce exactly the joins of the first 4, 6, ... parts that are fewer than all of them |
| EffectivePermissions.ParentScopesOf | backend/permission_functions/get_effective_permissions/index.js:167-181 | parent scope t is the join of the first 2t+4 parts, and every stepped prefix shorter than the id is listed |
| EffectivePermissions.ParentScopesExcludeId | backend/permission_functions/get_effective_permissions/index.js:180 | no parent scope equals the resource id |
| EffectivePermissions.Without | backend/permission_functions/get_effective_permissions/index.js:180 | the filter keeps only elements of the input that differ from the dropped value |
| EffectivePermissions.WithoutAbsent | backend/permission_functions/get_effective_permissions/index.js:180 | filtering out a value that is absent changes nothing |
| EffectivePermissions.PrefixJoinIsProper | backend/permission_functions/get_effective_permissions/index.js:175 | joining fewer than all the parts gives a proper prefix of the id |
| EffectivePermissions.ParentScopesAreProperPrefixes | backend/permission_functions/get_effective_permissions/index.js:171-180 | every parent scope is a proper prefix of the resource id |
| EffectivePermissions.ParentScopeParts | backend/permission_functions/get_effective_permissions/index.js:174-175 | parent scope t splits back into exactly the first 2t+4 parts of the id |
| EffectivePermissions.ParentScopesHaveEvenParts | backend/permission_functions/get_effective_permissions/index.js:174-175 | every parent scope has an even number of parts, at least four and fewer than the id's |
| EffectivePermissions.PrefixJoinStep | backend/permission_functions/get_effective_permissions/index.js:175 | each longer prefix join extends the previous one by `/` and one part |
| EffectivePermissions.ParentScopesSkipSubscriptionAndGroup | backend/permission_functions/get_effective_permissions/index.js:171-180 | `/subscriptions/{s}` and `/subscriptions/{s}/resourceGroups/{rg}` are never parent scopes |
| EffectivePermissions.ParentScopesOfTopLevelResource | backend/permission_functions/get_effective_permissions/index.js:167-181 | for a provider resource, the parent scopes end on `resourceGroups`, on `providers` and on the type |
| EffectivePermissions.Matching | backend/permission_functions/get_effective_permissions/index.js:93-94 | an assignment is kept iff it is in the listing and belongs to the principal; never more than listed |
| EffectivePermissions.MatchingInOrder | backend/permission_functions/get_effective_permissions/index.js:93-94 | kept assignment k is the k-th assignment of the principal in the listing, so listing order and repeats are kept |
| EffectivePermissions.ResolveMatchingSticks | backend/permission_functions/get_effective_permissions/index.js:93-117 | once one lookup in a listing pass throws, the whole pass fails |
| EffectivePermissions.InheritedFromSticks | backend/permission_functions/get_effective_permissions/index.js:123-157 | once one parent scope's pass throws, the parent-scope loop fails |
| EffectivePermissions.ResolveListing | backend/permission_functions/get_effective_permissions/index.js:93-117 | one pass over a listing computes a record per assignment of the principal, in listing order, or fails when a lookup rejects |
| EffectivePermissions.InheritedAssignments | backend/permission_functions/get_effective_permissions/index.js:123-157 | the loop over the parent scopes computes `InheritedFrom`: one pass per scope, concatenated in scope order, or failure when a listing or a lookup rejects |
| EffectivePermissions.RoleAssignmentsForPrincipal | backend/permission_functions/get_effective_permissions/index.js:86-160 | the direct entries then the parent-scope entries, or the fault that ends the loops |
| EffectivePermissions.AssignmentsForPrincipal | backend/permission_functions/get_effective_permissions/index.js:86-160 | the listing fault iff the resource scope cannot be listed; every other failure is the ReferenceError |
| EffectivePermissions.ResolveMatchingMeaning | backend/permission_functions/get_effective_permissions/index.js:93-117 | a listing pass succeeds iff every matching lookup does; it then gives one record per matching assignment, in order, with its definition's name |
| EffectivePermissions.InheritedFromMeaning | backend/permission_functions/get_effective_permissions/index.js:123-157 | on success every parent scope listed and resolved, the entries are the scopes' passes concatenated in scope order, and each entry is inherited, belongs to the principal and had its definition found |
| EffectivePermissions.InheritedFromFull | backend/permission_functions/get_effective_permissions/index.js:123-157 | the parent-scope loop succeeds iff every scope lists and every matching lookup in it succeeds; it then yields the passes one after the other, in scope order |
| EffectivePermissions.AssignmentsForPrincipalMeaning | backend/permission_functions/get_effective_permissions/index.js:86-160 | on success: only the principal's entries; direct ones first, not inherited, record k being matching direct assignment k with its definition's name (every such lookup having succeeded); then exactly the parent scopes' passes concatenated in scope order, every parent scope having resolved |
| EffectivePermissions.FailedDirectLookupIsFatal | backend/permission_functions/get_effective_permissions/index.js:106-107 | a failed definition lookup for a matching direct assignment ends in the ReferenceError, not in 'Unknown Role' |
| EffectivePermissions.UnionBlocksMeaning | backend/permission_functions/get_effective_permissions/index.js:198-205 | an action is granted iff some permission block lists it among its `actions` |
| EffectivePermissions.OnlyActionsCount | backend/permission_functions/get_effective_permissions/index.js:198-205 | notActions, dataActions and notDataActions never change the granted set |
| EffectivePermissions.GrantedMeaning | backend/permission_functions/get_effective_permissions/index.js:189-210 | the set exists iff every lookup succeeds, and it holds exactly the actions of the looked-up definitions |
| EffectivePermissions.Granted | backend/permission_functions/get_effective_permissions/index.js:189-210 | a set is produced only when every lookup succeeded |
| EffectivePermissions.FailedLookupVoidsGrant | backend/permission_functions/get_effective_permissions/index.js:192-208 | one rejected lookup, whatever the others give, ends the computation in the ReferenceError instead of skipping that role |
| EffectivePermissions.GrantedSticks | backend/permission_functions/get_effective_permissions/index.js:192-210 | once one lookup throws, the whole computation fails |
| EffectivePermissions.AddBlockActions | backend/permission_functions/get_effective_permissions/index.js:200-204 | the set grows by exactly the actions of the block, nothing when the block has none |
| EffectivePermissions.AddDefinitionActions | backend/permission_functions/get_effective_permissions/index.js:198-206 | the set grows by exactly the actions of the definition's blocks, nothing when it has no permissions |
| EffectivePermissions.EffectiveActions | backend/permission_functions/get_effective_permissions/index.js:189-213 | the result is strictly ascending in code-unit order, so duplicate-free, and holds exactly the granted actions |
| EffectivePermissions.Summaries | backend/permission_functions/get_effective_permissions/index.js:52-55 | one `{roleName, scope}` per entry, in order; the inherited flag is dropped |
| EffectivePermissions.FoundRolesResolve | backend/permission_functions/get_effective_permissions/index.js:41-44 | when the second round of lookups reads the definitions the first round read, it cannot fail once the assignments resolved |
| EffectivePermissions.HandleRequest | backend/permission_functions/get_effective_permissions/index.js:9-67 | 400 for a falsy parameter, then 400 for an id without a subscription; otherwise 500 with the fault of the assignment loops, 500 with the ReferenceError when a second-round lookup (`later`) rejects, or the 200 body with the summaries and the sorted union of the second round |
| RoleAssignments.TransformAllSticks | azure-enterprise-manager/backend/permission_functions/get_role_assignments/index.js:79-114 | once one iteration throws, the loop fails |
| RoleAssignments.TransformOne | azure-enterprise-manager/backend/permission_functions/get_role_assignments/index.js:80-108 | a successful iteration gives a transformed entry with the assignment's id and scope |
| RoleAssignments.TransformAll | azure-enterprise-manager/backend/permission_functions/get_role_assignments/index.js:79-114 | on success, one entry per assignment |
| RoleAssignments.TransformRoleAssignments | azure-enterprise-manager/backend/permission_functions/get_role_assignments/index.js:76-117 | the loop computes the entries in input order, or fails when an iteration throws |
| RoleAssignments.TransformOneMeaning | azure-enterprise-manager/backend/permission_functions/get_role_assignments/index.js:80-108 | one iteration fails iff it makes a lookup and the lookup rejects; otherwise its entry copies the fields, sets principalName to principalId and takes roleName from the lookup or 'Unknown Role' |
| RoleAssignments.TransformAllMeaning | azure-enterprise-manager/backend/permission_functions/get_role_assignments/index.js:79-114 | the loop fails iff a lookup it makes rejects; otherwise one transformed entry per assignment, with the fields copied, principalName equal to principalId, and roleName from the lookup or 'Unknown Role' |
| RoleAssignments.TransformAllLooksUpFullIds | azure-enterprise-manager/backend/permission_functions/get_role_assignments/index.js:83-89 | only the lookups of full definition ids with a `/roleDefinitions/` segment matter; with no such segment the client is never consulted |
| RoleAssignments.NoRawEntries | azure-enterprise-manager/backend/permission_functions/get_role_assignments/index.js:109-112 | the raw-assignment fallback is unreachable: every entry of a 200 body is a transformed one |
| RoleAssignments.HandleRequest | azure-enterprise-manager/backend/permission_functions/get_role_assignments/index.js:9-58 | 400 for a falsy scope, 400 for a scope without a subscription; otherwise the listing's transform as 200, or 500 |
| RoleDefinitions.OrEmpty | azure-enterprise-manager/backend/permission_functions/get_role_definitions/index.js:60-63 | `list \|\| []` keeps a present list and turns an absent one into `[]` |
| RoleDefinitions.ShapePermission | azure-enterprise-manager/backend/permission_functions/get_role_definitions/index.js:59-64 | all four lists are present, and present ones are kept |
| RoleDefinitions.ShapeDefinition | azure-enterprise-manager/backend/permission_functions/get_role_definitions/index.js:57-76 | the fields are copied verbatim; permissions become `[]` when absent or one shaped block per block; assignableScopes default to `[]` |
| RoleDefinitions.TransformRoleDefinitions | azure-enterprise-manager/backend/permission_functions/get_role_definitions/index.js:56-77 | same length and order, one shaped definition each |
| RoleDefinitions.ShapeKeepsComplete | azure-enterprise-manager/backend/permission_functions/get_role_definitions/index.js:57-76 | shaping leaves a definition that has every list unchanged |
| RoleDefinitions.TransformIdempotent | azure-enterprise-manager/backend/permission_functions/get_role_definitions/index.js:56-77 | transforming the output again changes nothing |
| RoleDefinitions.HandleRequest | azure-enterprise-manager/backend/permission_functions/get_role_definitions/index.js:9-49 | 400 for a falsy subscription id; otherwise the definitions listed at `/subscriptions/{id}`, shaped, or 500 |
| ResourceDetails.FirstIncluded | azure-enterprise-manager/backend/network_functions/get_resource_details/index.js:74-85 | the first kind in dispatch order whose marker the id contains, none earlier |
| ResourceDetails.Classify | azure-enterprise-manager/backend/network_functions/get_resource_details/index.js:72-89 | none iff no marker occurs; otherwise the first kind in dispatch order whose marker occurs |
| ResourceDetails.Position | azure-enterprise-manager/backend/network_functions/get_resource_details/index.js:74-85 | each kind has its place in the dispatch order |
| ResourceDetails.VirtualNetworkMarkerWins | azure-enterprise-manager/backend/network_functions/get_resource_details/index.js:74-75 | every id containing `/virtualNetworks/`, subnet ids included, goes to the virtual-network handler |
| ResourceDetails.SubnetOnlyWithoutExactVirtualNetworks | azure-enterprise-manager/backend/network_functions/get_resource_details/index.js:74-77 | the subnet handler is reached only when `/virtualNetworks/` is absent in that exact case |
| ResourceDetails.CaptureAll | azure-enterprise-manager/backend/network_functions/get_resource_details/index.js:102-107 | all the name segments of a handler are captured, or none when one fails to match |
| ResourceDetails.Parse | azure-enterprise-manager/backend/network_functions/get_resource_details/index.js:102-110 | a handler throws its own 'Invalid ... resource ID' unless the resource group and every name segment parse; otherwise the key holds the kind, the resource group and exactly the captured names |
| ResourceDetails.ParsedRefs | azure-enterprise-manager/backend/network_functions/get_resource_details/index.js:343-351 | never more keys than references |
| ResourceDetails.ParsedRefsMeaning | azure-enterprise-manager/backend/network_functions/get_resource_details/index.js:343-351 | key k is the parse of the k-th reference whose id parses both segments, so the keys follow reference order and skip exactly the unparsable ones |
| ResourceDetails.NicsOfSticks | azure-enterprise-manager/backend/network_functions/get_resource_details/index.js:343-368 | once one NIC fetch fails, the loop fails |
| ResourceDetails.NicsOfMeaning | azure-enterprise-manager/backend/network_functions/get_resource_details/index.js:341-369 | the loop succeeds iff every parsed reference fetches, and it then lists their summaries in reference order |
| ResourceDetails.NicsOf | azure-enterprise-manager/backend/network_functions/get_resource_details/index.js:341-369 | on success, one summary per parsed reference |
| ResourceDetails.Summaries | azure-enterprise-manager/backend/network_functions/get_resource_details/index.js:354-356 | one summary per fetched NIC, in key order |
| ResourceDetails.CollectNics | azure-enterprise-manager/backend/network_functions/get_resource_details/index.js:341-369 | the loop over `networkInterfaces` computes the NIC list, with an absent list giving `[]` |
| ResourceDetails.UnsupportedIds | azure-enterprise-manager/backend/network_functions/get_resource_details/index.js:86-88 | an id with none of the markers is rejected with "Unsupported resource type: " and the id |
| ResourceDetails.DetailsOf | azure-enterprise-manager/backend/network_functions/get_resource_details/index.js:72-120 | an id with no marker is rejected with "Unsupported resource type: " and the id; a success carries the type label of the kind the id dispatched to |
| ResourceDetails.UnparsedIds | azure-enterprise-manager/backend/network_functions/get_resource_details/index.js:105-107 | a dispatched id whose segments do not all parse is rejected with its handler's message |
| ResourceDetails.DetailsShape | azure-enterprise-manager/backend/network_functions/get_resource_details/index.js:115-120 | a 200 answer carries its kind's type label and the parsed resource group |
| ResourceDetails.FailedNicFetchIsFatal | azure-enterprise-manager/backend/network_functions/get_resource_details/index.js:363-366 | for a VM with a parsable NIC reference that cannot be fetched, the request ends in the ReferenceError |
| ResourceDetails.ParsedRefsComplete | azure-enterprise-manager/backend/network_functions/get_resource_details/index.js:345-351 | every reference that parses contributes its key |
| ResourceDetails.HandleRequest | azure-enterprise-manager/backend/network_functions/get_resource_details/index.js:10-53 | 400 for a falsy id, 400 for an id without a subscription; otherwise 500 with the fault, or the details as 200 |
| Topology.ShapeSubnets | backend/network_functions/get_topology/index.js:42-46 | subnets are projected to `{id, name, addressPrefix}`, preserving length and order |
| Topology.ShapeVNet | backend/network_functions/get_topology/index.js:37-47 | id, name and location are copied; addressSpace is the prefixes joined with ", " |
| Topology.ShapeEach | backend/network_functions/get_topology/index.js:30-48 | one output network per listed network, in listing order |
| Topology.ShapeVNetsMeaning | backend/network_functions/get_topology/index.js:30-48 | the fan-out succeeds iff every subnet listing does, and gives one shaped network per listed network |
| Topology.ShapeVNets | backend/network_functions/get_topology/index.js:30-48 | on success, one shaped network per listed network |
| Topology.JoinCommaSpace | backend/network_functions/get_topology/index.js:40 | a ", " join is a "," join after putting a space before every part but the first |
| Topology.JoinSpaceFirst | backend/network_functions/get_topology/index.js:40 | a space before the first part is a space before the join |
| Topology.Spaced | backend/network_functions/get_topology/index.js:40 | each part gets one space in front |
| Topology.AddressSpaceSplits | backend/network_functions/get_topology/index.js:40 | splitting the address space of comma-free prefixes on ',' gives the first prefix, then each further prefix behind one space |
| Topology.HandleRequest | backend/network_functions/get_topology/index.js:5-66 | 400 for a falsy subscription id; 500 with the fixed message when a listing fails; otherwise 200 with `{vnets}`, the shaped networks |
| TopologyGraph.BuildGraph | frontend/src/components/NetworkTopology.js:64-104 | the nested loops produce exactly the node list and the edge list of the graph |
| TopologyGraph.GraphNodes | frontend/src/components/NetworkTopology.js:64-94 | one node per network and per subnet |
| TopologyGraph.GraphEdges | frontend/src/components/NetworkTopology.js:97-102 | one edge per subnet |
| TopologyGraph.SubnetNodesAt | frontend/src/components/NetworkTopology.js:82-94 | subnet node j of network i is the node for that subnet at that place |
| TopologyGraph.SubnetEdgesAt | frontend/src/components/NetworkTopology.js:97-102 | edge j of a network goes to its subnet j |
| TopologyGraph.NodeLayout | frontend/src/components/NetworkTopology.js:68-94 | network i's node, type 'vnetNode' at (250, 300i), comes right after the earlier networks and their subnets; its subnet j's node, type 'subnetNode' at (600, 300i+100j), follows it |
| TopologyGraph.EdgeLayout | frontend/src/components/NetworkTopology.js:97-102 | network i's edges follow the earlier networks' edges: id `e-{vnet}-{subnet}`, from the network to the subnet, animated |
| TopologyGraph.NetworkTopologyView.constructor | frontend/src/components/NetworkTopology.js:39-43 | the initial state: empty subscription and graph, not loading, no error |
| TopologyGraph.NetworkTopologyView.SetSubscriptionId | frontend/src/components/NetworkTopology.js:50-52 | only the subscription input changes |
| TopologyGraph.NetworkTopologyView.FetchTopology | frontend/src/components/NetworkTopology.js:54-114 | nothing happens without a subscription id; otherwise the graph is replaced on success or the error message is set on failure, and the loading flag ends cleared |
| TopologyGraph.NetworkPageView.constructor | frontend/src/pages/NetworkPage.tsx:64-67 | the initial state: empty subscription and graph |
| TopologyGraph.NetworkPageView.LoadNetworkTopology | frontend/src/pages/NetworkPage.tsx:78-131 | nothing happens without a subscription id; on success the graph is replaced; on failure it is left as it was |
| TokenVerification.StripBearer | azure-enterprise-manager/backend/auth/tokenVerification.js:37 | a leading "Bearer " is removed; any other token passes unchanged |
| TokenVerification.StripBearerOnce | azure-enterprise-manager/backend/auth/tokenVerification.js:37 | exactly one prefix is stripped |
| TokenVerification.VerifyToken | azure-enterprise-manager/backend/auth/tokenVerification.js:30-55 | rejected with 'No token provided' iff the token is falsy; otherwise accepted iff the stripped token is one the verifier accepts, with its payload |
| TokenVerification.NoTokenNeverVerified | azure-enterprise-manager/backend/auth/tokenVerification.js:32-34 | without a token the verifier is never consulted |
| TokenVerification.HeaderToken | azure-enterprise-manager/backend/auth/tokenVerification.js:70 | the second space-separated field, absent iff the header has no space, and never containing a space |
| TokenVerification.HeaderTokenAfterScheme | azure-enterprise-manager/backend/auth/tokenVerification.js:70 | the field after the first space is the token, whatever the scheme before it |
| TokenVerification.BearerHeaderToken | azure-enterprise-manager/backend/auth/tokenVerification.js:70 | a "Bearer" SP token header (section 2.1 of RFC 6750) yields its token |
| TokenVerification.SpacelessNeverStripped | azure-enterprise-manager/backend/auth/tokenVerification.js:37 | a header field has no space, so the strip never applies to it |
| TokenVerification.Authenticate | azure-enterprise-manager/backend/auth/tokenVerification.js:63-81 | 'Authorization header missing' iff the header is falsy; authenticated iff the second field is non-empty and accepted, with its payload |
| TokenVerification.AnyRequired | azure-enterprise-manager/backend/auth/tokenVerification.js:98 | true iff some required role is among the user's roles |
| TokenVerification.CheckRoles | azure-enterprise-manager/backend/auth/tokenVerification.js:88-106 | the outcome is 401 exactly when there is no user |
| TokenVerification.CheckRolesMeaning | azure-enterprise-manager/backend/auth/tokenVerification.js:88-106 | 401 iff no user; the request passes iff a required role is in the user's `roles` claim |
| TokenVerification.NoRequiredRolesForbids | azure-enterprise-manager/backend/auth/tokenVerification.js:98-102 | an empty list of required roles gives every user 403 |
| TokenVerification.Exchange.constructor | azure-enterprise-manager/backend/auth/tokenVerification.js:63-65 | a request with its Authorization header and nothing sent yet |
| TokenVerification.Exchange.AuthenticateRequest | azure-enterprise-manager/backend/auth/tokenVerification.js:63-81 | 401 with the message of each failure; on success req.user is the payload and next runs exactly once |
| TokenVerification.Exchange.HasRole | azure-enterprise-manager/backend/auth/tokenVerification.js:88-106 | 401 without a user, 403 without a required role, otherwise next runs once; req.user is untouched |
| PropertyDisplay.CapitalizeFirst | frontend/src/components/ResourceDetails.js:168 | the first character is upper-cased and the rest kept, and a line terminator, which `^.` does not match, stays as it is |
| PropertyDisplay.SpaceUppercase | frontend/src/components/ResourceDetails.js:167 | every upper-case letter of the result has a space right before it |
| PropertyDisplay.FormatPropertyName | frontend/src/components/ResourceDetails.js:165-169 | the output length is the input length plus the number of upper-case letters |
| PropertyDisplay.SpaceUppercaseLength | frontend/src/components/ResourceDetails.js:167 | one space is inserted per upper-case letter |
| PropertyDisplay.LeadingUpperGivesSpace | frontend/src/components/ResourceDetails.js:167-168 | a name starting with an upper-case letter yields a space, then that letter |
| PropertyDisplay.NoUpperOnlyCapitalized | frontend/src/components/ResourceDetails.js:165-169 | without upper-case letters only the first character is capitalized |
| PropertyDisplay.NoUpperUnspread | frontend/src/components/ResourceDetails.js:167 | without upper-case letters nothing is inserted |
| PropertyDisplay.SpreadStartsLower | frontend/src/components/ResourceDetails.js:167 | the spread name never starts with an upper-case letter |
| PropertyDisplay.UnspreadSpaceUppercase | frontend/src/components/ResourceDetails.js:167 | removing the space before each upper-case letter undoes the spreading |
| PropertyDisplay.FormatPropertyNameRecovers | frontend/src/components/ResourceDetails.js:165-169 | for a lower-case first letter the formatted name gives back the name with that letter capitalized |
| PropertyDisplay.RenderPropertyValue | frontend/src/components/ResourceDetails.js:176-181 | null and undefined become 'None', booleans 'Yes'/'No', objects JSON, strings unchanged |
| PropertyDisplay.RenderedTextIsAmbiguous | frontend/src/components/ResourceDetails.js:176-181 | the strings "None", "Yes" and "No" render like null, true and false |
| PropertyDisplay.ObjectFields | frontend/src/components/ResourceDetails.js:135-144 | never more fields than entries |
| PropertyDisplay.ObjectFieldsMeaning | frontend/src/components/ResourceDetails.js:135-144 | field k is the formatted name and rendered value of the k-th non-null entry, so null entries and only they are dropped, in order |
| PropertyDisplay.ObjectFieldsWithoutNull | frontend/src/components/ResourceDetails.js:135-144 | without null values every nested field is shown, in order |
| PropertyDisplay.RenderProperties | frontend/src/components/ResourceDetails.js:92-158 | nothing for absent properties; otherwise one slot per entry, filled iff the value is not null, undefined or an empty array |
| PropertyDisplay.Drawn | frontend/src/components/ResourceDetails.js:95-157 | never more rows than slots |
| PropertyDisplay.DrawnMeaning | frontend/src/components/ResourceDetails.js:95-157 | row k is the content of the k-th filled slot, so empty slots and only they are skipped, in order |
| PropertyDisplay.WithContent | frontend/src/components/ResourceDetails.js:97-98 | only entries with content remain |
| PropertyDisplay.RowsOf | frontend/src/components/ResourceDetails.js:100-156 | one row per entry, in order |
| PropertyDisplay.DrawnRows | frontend/src/components/ResourceDetails.js:92-158 | the rows drawn are those of the entries with content, in key order |
| PropertyDisplay.EmptyValuesDrawNothing | frontend/src/components/ResourceDetails.js:97-98 | null, undefined and empty arrays draw nothing |
| ScopeDisplay.FormatScope | frontend/src/components/EffectivePermissions.js:141 | a scope with fewer than four parts is shown unchanged |
| ScopeDisplay.ScopeEndsWithLastTwo | frontend/src/components/EffectivePermissions.js:137-140 | with at least four parts the scope ends with `/` and its last two parts |
| ScopeDisplay.FormatScopeIsSuffix | frontend/src/components/EffectivePermissions.js:135-142 | the display is a suffix of the scope, so never longer |
| ScopeDisplay.FormatScopeParts | azure-enterprise-manager/frontend/src/components/RoleAssignments.js:112-115 | with at least four parts the display splits into exactly the last two |
| ScopeDisplay.FormatScopeIdempotent | azure-enterprise-manager/frontend/src/components/RoleAssignments.js:110-117 | formatting a displayed scope again changes nothing |
| ScopeDisplay.LastTwoOfFive | azure-enterprise-manager/frontend/src/components/RoleAssignments.js:113-114 | five `/`-free parts are shown as the last two |
| ScopeDisplay.ResourceGroupScopeShown | frontend/src/components/EffectivePermissions.js:135-142 | a resource-group scope is shown as `resourceGroups/{name}` |
| ScopeDisplay.InheritedBadge | frontend/src/components/EffectivePermissions.js:105 | the badge shows iff `inherited` is present and true |
| ScopeDisplay.ShownRoles | backend/permission_functions/get_effective_permissions/index.js:52-55 | the entries the view reads carry roleName and scope and no inherited field |
| ScopeDisplay.NoInheritedBadge | frontend/src/components/EffectivePermissions.js:105 | so the badge never shows for an effective-permissions response |
| ScopeDisplay.RoleAssignmentsView.constructor | azure-enterprise-manager/frontend/src/components/RoleAssignments.js:10-14 | the initial state: empty scope and list, not loading, no error |
| ScopeDisplay.RoleAssignmentsView.SetScope | azure-enterprise-manager/frontend/src/components/RoleAssignments.js:49-51 | only the scope changes |
| ScopeDisplay.RoleAssignmentsView.FetchRoleAssignments | azure-enterprise-manager/frontend/src/components/RoleAssignments.js:27-46 | no request while the scope is empty; otherwise one request, the list replaced on success or the message set on failure, and loading cleared |
| Sorting.SortBy | azure-enterprise-manager/backend/cost_functions/get_cost_breakdown/index.js:80 | the array ends sorted by the key and is a permutation of the input |
| Sorting.SortedElements | backend/permission_functions/get_effective_permissions/index.js:212 | `Array.from(set).sort()`: strictly ascending, holding exactly the set's elements |
| Costs.ScopeOf | backend/cost_functions/get_costs/index.js:29 | the scope is "subscriptions/" then the id, with no leading slash |
| Costs.FirstWhere | backend/cost_functions/get_costs/index.js:60 | `find`: the leftmost column satisfying the test, or none |
| Costs.Currency | backend/cost_functions/get_costs/index.js:57-64 | the currency is never empty |
| Costs.CurrencyOfFirstCostColumn | azure-enterprise-manager/backend/cost_functions/get_cost_breakdown/index.js:83-89 | the first "Cost" column decides: its currency when it has type "Number" and a currency, else "USD" |
| Costs.CurrencyWithoutCostColumn | backend/cost_functions/get_cost_trend/index.js:127-133 | without a "Cost" column the currency is "USD" |
| Costs.TotalOf | backend/cost_functions/get_costs/index.js:52-55 | the first cell of the first row, or 0 without rows |
| Costs.HandleCosts | backend/cost_functions/get_costs/index.js:9-84 | 400 for a falsy subscription id; otherwise the MonthToDate query at "subscriptions/{id}", its total and currency, or 500 |
| Costs.Pushed | azure-enterprise-manager/backend/cost_functions/get_cost_breakdown/index.js:60-72 | one item per row, in row order: item k has row k's `row[1]` as type, its `row[0]` as cost, and percentage 0 |
| Costs.WithPercentages | azure-enterprise-manager/backend/cost_functions/get_cost_breakdown/index.js:75-77 | each item's percentage is cost / total × 100 when the total is positive, else 0; nothing else changes |
| Costs.Percentage | azure-enterprise-manager/backend/cost_functions/get_cost_breakdown/index.js:76 | with a positive total the percentage times the total is 100 times the cost; otherwise 0 |
| Costs.PushRows | azure-enterprise-manager/backend/cost_functions/get_cost_breakdown/index.js:57-72 | the loop pushes one item per row and sums their costs |
| Costs.SetPercentages | azure-enterprise-manager/backend/cost_functions/get_cost_breakdown/index.js:75-77 | the array holds the items with their percentages set |
| Costs.CostBreakdown | azure-enterprise-manager/backend/cost_functions/get_cost_breakdown/index.js:57-80 | the total is the sum of the costs; the items are sorted by cost, non-increasing, and are a permutation of the items with percentages |
| Costs.SumPercentAppend | azure-enterprise-manager/backend/cost_functions/get_cost_breakdown/index.js:75-77 | percentage sums add over concatenation |
| Costs.SumPercentPermutation | azure-enterprise-manager/backend/cost_functions/get_cost_breakdown/index.js:80 | sorting keeps the percentage sum |
| Costs.SumOfPercentages | azure-enterprise-manager/backend/cost_functions/get_cost_breakdown/index.js:75-77 | with a positive total the percentages sum to the cost sum / total × 100 |
| Costs.BreakdownPercentagesSumTo100 | azure-enterprise-manager/backend/cost_functions/get_cost_breakdown/index.js:57-80 | with a positive total, any reordering of the pushed items with their percentages set, the sorted breakdown among them, has percentages summing to 100 |
| Costs.PercentagesWithoutPositiveTotal | azure-enterprise-manager/backend/cost_functions/get_cost_breakdown/index.js:76 | without a positive total every percentage is 0 |
| Costs.HandleBreakdown | azure-enterprise-manager/backend/cost_functions/get_cost_breakdown/index.js:9-110 | 400 for a falsy subscription id; otherwise the breakdown, total, currency and timeframe (default MonthToDate), or 500 |
| Costs.QueryWindow | backend/cost_functions/get_cost_trend/index.js:33-50 | Last30Days gives Custom/Daily; Last3Months and Last12Months give Custom/Monthly; anything else gives MonthToDate/Daily |
| Costs.ExtractedTrend | backend/cost_functions/get_cost_trend/index.js:101-121 | no points without a DateTime column; otherwise one `{date, cost}` per row, taken from that column and the first |
| Costs.CostTrend | backend/cost_functions/get_cost_trend/index.js:101-124 | the trend is sorted ascending by date and is a permutation of the extracted points |
| Costs.HandleCostTrend | backend/cost_functions/get_cost_trend/index.js:9-155 | 400 for a falsy subscription id; otherwise the window of the period (default Last30Days), the sorted trend and the currency, or 500 |
| Corrected.IntendedParentScopesAreProperPrefixes | backend/permission_functions/get_effective_permissions/index.js:167-181 | every intended parent scope is a proper prefix of the id |
| Corrected.IntendedScopesIncludeSubscriptionAndGroup | backend/permission_functions/get_effective_permissions/index.js:167-181 | for an id below a resource group, the first two intended scopes are the subscription and the resource group |
| Corrected.IntendedParentScopes | backend/permission_functions/get_effective_permissions/index.js:167-181 | intended scope t is the join of the first 2t+3 parts, and every odd prefix shorter than the id is listed |
| Corrected.DescribeOrUnknown | backend/permission_functions/get_effective_permissions/index.js:99-114 | the record copies the assignment; its role name is the definition's, or 'Unknown Role' when the lookup fails |
| Corrected.ResolveAll | backend/permission_functions/get_effective_permissions/index.js:93-117 | one record per matching assignment, in listing order, whatever the lookups do |
| Corrected.LookupFailureNotFatal | backend/permission_functions/get_effective_permissions/index.js:106-114 | a failed lookup yields an 'Unknown Role' record instead of failing the request |
| Corrected.ResolveAllAgrees | backend/permission_functions/get_effective_permissions/index.js:93-117 | whenever the pass as written succeeds, the intended pass gives the same records |
| Corrected.InheritedSkipping | backend/permission_functions/get_effective_permissions/index.js:123-157 | every parent-scope entry is inherited |
| Corrected.InheritedSkippingFull | backend/permission_functions/get_effective_permissions/index.js:123-157 | the intended loop yields every parent scope's records one after the other in scope order, a scope whose listing fails adding none |
| Corrected.IntendedAssignments | backend/permission_functions/get_effective_permissions/index.js:86-160 | fails iff the resource scope itself cannot be listed |
| Corrected.GrantedSkippingMeaning | backend/permission_functions/get_effective_permissions/index.js:189-210 | an action is granted iff some assignment's definition lookup succeeds and that definition lists it |
| Corrected.LookupFailureKeepsOtherActions | backend/permission_functions/get_effective_permissions/index.js:192-208 | a rejected lookup for one assignment does not remove the actions of another whose lookup succeeds |
| Corrected.GrantedSkippingAgrees | backend/permission_functions/get_effective_permissions/index.js:189-210 | whenever the loop as written succeeds, it grants exactly the intended set |
| Corrected.TransformOneIntended | azure-enterprise-manager/backend/permission_functions/get_role_assignments/index.js:86-108 | always a transformed entry; 'Unknown Role' when no lookup is made or the lookup fails |
| Corrected.TransformIntended | azure-enterprise-manager/backend/permission_functions/get_role_assignments/index.js:79-114 | one intended entry per assignment, in input order |
| Corrected.TransformIntendedAgrees | azure-enterprise-manager/backend/permission_functions/get_role_assignments/index.js:79-114 | whenever the loop as written succeeds, it gives exactly the intended entries |
| Corrected.FetchedSummaries | azure-enterprise-manager/backend/network_functions/get_resource_details/index.js:352-366 | a NIC that cannot be fetched is skipped, so there are never more summaries than keys |
| Corrected.NicsSkipping | azure-enterprise-manager/backend/network_functions/get_resource_details/index.js:341-369 | at most one NIC per reference |
| Corrected.FetchedSummariesMeaning | azure-enterprise-manager/backend/network_functions/get_resource_details/index.js:352-366 | a NIC is listed iff one of the parsed keys fetches it |
| Corrected.NothingSkippedWhenAllFetch | azure-enterprise-manager/backend/network_functions/get_resource_details/index.js:352-366 | when every key fetches, the intended list is the list as written |
| Corrected.NicsSkippingAgrees | azure-enterprise-manager/backend/network_functions/get_resource_details/index.js:341-369 | whenever the loop as written succeeds, it gives exactly the intended list |
| Corrected.ClassifyIntended | azure-enterprise-manager/backend/network_functions/get_resource_details/index.js:74-85 | subnet ids go to the subnet handler; other ids are dispatched as written |
| Corrected.SubnetIdsReachSubnetHandler | azure-enterprise-manager/backend/network_functions/get_resource_details/index.js:74-77 | a subnet id reaches the subnet handler, where the code as written sends it to the virtual-network handler |

## Left out

- The Azure SDK clients, `DefaultAzureCredential` and the network are replaced by maps. The messages of SDK errors are not modelled: every rejection is `Http.Fault.UpstreamFailure`.
- `jwt.verify`, the JWKS key fetch and the RS256 signature, audience and issuer checks (section 3.3 of RFC 7518) are a parameter: the tokens accepted and their payloads.
- `Exchange.AuthenticateRequest`: an exception thrown by `next()` itself, which the source also answers with 401, is not modelled; `next` is a call count.
- The clock and the date arithmetic of the cost trend (`new Date`, `setMonth`, `toISOString`): `fromDate` and `toDate` are parameters, and `new Date(x)` used for sorting is the parameter `timeOf` (invalid dates, NaN, are not modelled).
- Floating point: costs and percentages are exact reals, so rounding, NaN and infinities are not modelled.
- Costs.CostOf: a non-numeric cost cell counts as 0 in the sum; JavaScript would concatenate strings or yield NaN.
- Sorting.SortBy: the stability of the JavaScript sort is not stated, only order and permutation.
- `JSON.stringify` and number `toString` in `renderPropertyValue` are opaque renderings (`Json`, `NumberText`). The rendering of list items inside a section, including a null item that would make `Object.entries` throw, is not modelled; a list row carries its title, count and items.
- `renderProperties` on falsy properties other than null and undefined (0, "", false) is not modelled: properties are an `Option` of entries.
- `toUpperCase` on non-ASCII characters: `Text.Fold` upper-cases ASCII letters only.
- The string order of `Array.prototype.sort()` compares UTF-16 code units; Dafny compares code points, which differs only between astral characters and U+E000 to U+FFFF.
- `Promise.all` in the topology function is modelled as a sequential map (same order; the first rejection wins).
- The properties each resource-details handler copies from the SDK (address spaces, IP configurations, disks, OS profile) are left out; the details carry id, name, type, location, resource group and, for a VM, the NIC list.
- EffectivePermissions.FoundRolesResolve: holds only when the second round of `getById` calls (line 195) reads the same definitions as the first (lines 97 and 131); the SDK may answer differently, which `EffectivePermissions.HandleRequest` models through its separate client `later`, whose rejection ends in the 500 of line 208.
- Logging (`context.log.*`, `console.error`) is left out; only the effect of the out-of-scope `context` calls is modelled.
- React rendering, ReactFlow, MSAL, the API service and the form-only components are not part of this model.

## Findings

| source | as written | input that shows it | evidently intended | confidence | as-written member | corrected member |
|---|---|---|---|---|---|---|
| backend/permission_functions/get_effective_permissions/index.js:174-175 | the joins of 4, 6, 8, ... parts are taken, which with the leading empty part end on `resourceGroups`, `providers` or a type | `/subscriptions/s/resourceGroups/g/providers/p/t/n` gives `/subscriptions/s/resourceGroups`, `.../providers` and `.../p/t` | the subscription and resource-group scopes, the joins of 3, 5, ... parts | high, not executed | EffectivePermissions.ParentScopesSkipSubscriptionAndGroup | Corrected.IntendedScopesIncludeSubscriptionAndGroup |
| backend/permission_functions/get_effective_permissions/index.js:106-107 | `context.log.warn` (here and at lines 142, 155 and 208) is called in a helper where `context` is not defined, so the recovery throws and the request ends in a 500 | a matching direct assignment whose definition lookup rejects | log, record 'Unknown Role' and go on; skip a parent scope whose listing fails | high, not executed | EffectivePermissions.FailedDirectLookupIsFatal | Corrected.LookupFailureNotFatal |
| backend/permission_functions/get_effective_permissions/index.js:207-208 | the same out-of-scope `context` in `getEffectivePermissions`, so one role definition that cannot be read fails the whole request | two assignments whose second definition lookup rejects | skip that role and grant the actions of the others | high, not executed | EffectivePermissions.FailedLookupVoidsGrant | Corrected.LookupFailureKeepsOtherActions |
| azure-enterprise-manager/backend/permission_functions/get_role_assignments/index.js:91-93 | the same out-of-scope `context` (here and at line 110); the raw-assignment fallback is unreachable and any failed lookup becomes a 500 | an assignment with a `/roleDefinitions/` segment whose lookup rejects | keep 'Unknown Role' for that assignment | high, not executed | RoleAssignments.TransformAllMeaning | Corrected.TransformIntendedAgrees |
| azure-enterprise-manager/backend/network_functions/get_resource_details/index.js:365 | the same out-of-scope `context`, so a NIC that cannot be fetched fails the whole VM request | a VM whose NIC reference parses but whose NIC get rejects | skip that NIC, as the comment at line 364 says | high, not executed | ResourceDetails.FailedNicFetchIsFatal | Corrected.NicsSkippingAgrees |
| azure-enterprise-manager/backend/network_functions/get_resource_details/index.js:74-77 | `/virtualNetworks/` is tested before `/subnets/`, and every subnet id contains both | `/subscriptions/s/resourceGroups/g/providers/Microsoft.Network/virtualNetworks/v/subnets/x` goes to the virtual-network handler | subnet ids reach the subnet handler | medium, not executed | ResourceDetails.VirtualNetworkMarkerWins | Corrected.SubnetIdsReachSubnetHandler |
