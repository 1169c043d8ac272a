# zoe privilege store — a Dafny model

zoe is a small Git-hosting back end. Users own **organizations**. Organizations hold
**projects**. Access is granted through rows of a `privilege` table, each linking one
user to one org or project at a level:

- PULLER (0);
- VIEWER (1);
- MODIFIER (2).

The project models this core:

- the data-access layer over the four MySQL tables (`org`, `project`, `user`, `privilege`);
- the org and project services that check a caller's rights and then change the tables;
- the helpers that shape an org's detail view;
- the legacy controller engines, which repeat the data-access statements.

The database is one `Store` object (module `Store`). It holds:

- each table as a sequence of rows in insertion order;
- the auto-increment counters;
- an `online` flag. When it is false, every statement fails with `Unavailable`, and a failed driver stays failed.

CreateOrg, DeleteOrg and CreateProject issue two writes as separate statements, with no transaction around them. Each takes an argument `failAt`: the number of the write (0 or 1) at which the driver fails, any larger value meaning it does not fail (`Store.BeforeWrite`). Their contracts state each partial state: a failure at the second write leaves the first in place.

Rows are never removed: deleting a row sets `is_deleted = 1`. `Store.Valid()` states that:

- every id was handed out by its table's counter;
- every grant names an org or project id already handed out.

Every state-changing operation preserves `Valid()`.

Conventions:

- A `QueryRow` lookup is "the first matching row in table order": `Rows.QueryRow`.
- A multi-row `Query` is "every matching row in table order": `Rows.Filter`.
- A statement that changes rows is a method that reassigns the table.
- A Go `nil` slice or `nil` record is `None`.
- A Go runtime panic (nil dereference, index out of range) is the error `Panic`.

Each service operation is written in two parts:

- a function that states its checks in the source's order, with the error each check returns: `CreationOwner`, `UpdateCaller`, `DeletionCaller`, `DetailTier`, `AuthorizationTarget`, `RevocationTarget`, `CreationParent`, `UpdateTarget`;
- a method that runs those checks and then performs the writes. Its `ensures` states the whole new state against the pre-state value of that function.

The main consequences proved:

- **Permission checks.** Modify rights imply view rights. Both checks look only at the caller's *first* active ORG grant. A caller with no grant fails the view check with "no rows" (an error), not with `false`. A PULLER grant on a project already gives modify rights on it.
- **Create then own.** Creating an org or a project leaves a MODIFIER grant for the creator. Afterwards the creator passes the modify check and may update the project.
- **Authorization.** Authorizing a target who holds an active grant rewrites the level of every grant row of the target on that org in place, soft-deleted rows included, and leaves every other row and the id counter as they were (`PrivilegeDao.Relevelled`). Otherwise it inserts exactly one new grant. Authorizing "viewer" and then "modifier" leaves the target with modify rights. A caller can never authorize themself.
- **Revocation.** Revoking soft-deletes all the target's active grants on the org and nothing else. Afterwards the target fails both checks the way a user who never held a grant does.
- **Listings.** The org list a user sees consists of the active orgs named by the first segment of one of the user's MODIFIER or VIEWER grants. PULLER-only users see none. An org whose name contains a dot is never listed.
- **Detail view.** The three tiers of the single-org view are modelled as written (`OrgService.SingleOrg`) and as evidently intended (`OrgService.SingleOrgIntended`). As written, the grant list pairs grants with users by index and the third tier compares a stored project name with a bare segment (see Findings).
- **Name length.** The org name limit counts UTF-8 bytes, as Go's `len` does, so a 29-character CJK name (87 bytes) is refused.

Org visibility is stored as 1 for `private = true` (controller/org_controller.go:77-80). The detail view and the create response label 1 as "public". `Utils.OrgVisibilityDisplayInverted` and `OrgService.CreateOrg` state this inversion as the code has it. Project visibility is stored as 0 for every request value except `"false"`. Its label is therefore not inverted.

In places the service code calls the data-access functions with signatures they do not have:

- it omits the connection argument;
- it expects `db.CreateOrg` to return an org record and `db.CreateProject` a project record;
- it passes the org request's `Private`, a `bool`, where `db.CreateOrg` takes `visibility int` (service/org_service.go:29, dao/db/org.go:69);
- it passes the project's `Private` string where the data-access layer takes an `int`;
- it passes `project.ParentId`, a string in the project record (model/project.go:8), where the project modify check takes an `int` org id (dao/db/privilege.go:166).

The model composes the data-access functions as the calls evidently intend:

- the create returns the row it inserted;
- the visibility is mapped the way the legacy controller maps it (controller/org_controller.go:77-80, controller/project_controller.go:80-85);
- a project's parent id is the org id it was created under, an `int` throughout.

## Model

| member | source | states |
|---|---|---|
| Rows.First | dao/db/org.go:11-23 | the first element satisfying the condition, and `None` exactly when no element satisfies it |
| Rows.QueryRow | dao/db/org.go:11-23 | `QueryRow(...).Scan`: `Unavailable` offline, "no rows" when nothing matches, otherwise the first matching row in table order |
| Rows.Filter | dao/db/project.go:10-26 | the scan loop of a `Query`: the result holds exactly the rows satisfying the condition, never more rows than the table |
| Rows.FirstAt | dao/db/org.go:11-23 | a row that matches, with no match before it, is the one `QueryRow` returns |
| Rows.FilterEmpty | dao/db/privilege.go:10-26 | a query returns no rows exactly when the single-row query finds none |
| Rows.FilterHead | dao/db/privilege.go:63-75 | the first row of a non-empty query result is the single-row query's answer |
| Rows.FirstMatchLast | dao/db/privilege.go:42-49 | after appending a matching row to a table with no match, the lookup finds the new row |
| Rows.FilterStep | dao/db/org.go:126-132 | scanning one more row appends it to the result exactly when it matches |
| Rows.FilterLengthStep | dao/db/org.go:126-132 | the count of matches grows by one exactly when the appended row matches |
| Rows.DisjointFiltersBound | dao/db/project.go:61-78 | two queries with disjoint conditions return at most the table's rows together, and all of them when the conditions cover every row |
| Rows.FilterLengthAgrees | dao/db/privilege.go:140-147 | two tables whose rows match pointwise alike give results of equal length |
| Rows.Placeholders | dao/db/org.go:110-113 | one `?` per requested item |
| Rows.Params | dao/db/org.go:116-119 | the parameter list is the name list, element by element |
| Rows.RunInList | dao/db/org.go:114-125 | an `in (...)` query: an empty list is a syntax error, a failed driver is `Unavailable`, otherwise the selected values are the parameters |
| Store.BeforeWrite | service/org_service.go:29-37 | the driver fails at the chosen write and stays failed; the tables are untouched |
| Names.Split | service/org_service.go:111 | `strings.Split(s, ".")`: at least one part, none containing a dot |
| Names.JoinSplit | service/org_service.go:111 | joining the parts with dots gives back the string |
| Names.SplitDotFreePrefix | service/org_service.go:205 | splitting a string behind a dot-free prefix extends the first part only |
| Names.SplitJoin | service/org_service.go:205 | splitting dot-free parts joined by dots gives back the parts |
| Names.QualifiedName | service/project_service.go:26 | the stored project name `org.Name + "." + req.Name` contains a dot |
| Names.QualifiedNameSegments | service/project_service.go:26 | for dot-free names, segment 0 of the qualified name is the org and segment 1 the project |
| Names.DotFreeSegments | service/org_service.go:111 | a dot-free name is its own segment 0 and has no segment 1 |
| Names.Utf8Length | service/org_service.go:19 | Go's `len` of a string, the bytes of its UTF-8 encoding: between one and four per character, and one per character exactly when every character is ASCII |
| Names.ThreeByteUtf8Length | service/org_service.go:19 | a name of characters from U+0800 to U+FFFF takes three bytes per character |
| PrivilegeDao.ActiveGrants | dao/db/privilege.go:128-138 | the active grants of one user on one resource, and none exactly when no row matches |
| PrivilegeDao.IsExistingPrivilege | dao/db/privilege.go:28-40 | true exactly when an active row has all five key values; "no rows" becomes false; any other failure is an error |
| PrivilegeDao.CreatePrivilege | dao/db/privilege.go:42-49 | appends one active grant under the next id and nothing else; afterwards the existence check finds it |
| PrivilegeDao.AddWithCheck | dao/db/privilege.go:51-61 | inserts the grant exactly when no identical active grant exists, so repeating it changes nothing; afterwards the grant exists |
| PrivilegeDao.ValidateForUserModifyOrg | dao/db/privilege.go:63-75 | true exactly when the user's first active ORG grant on the org is MODIFIER; every error, "no rows" included, becomes false |
| PrivilegeDao.ValidateForUserViewOrg | dao/db/privilege.go:77-89 | the first active ORG grant is VIEWER or higher; "no rows" is passed through as an error |
| PrivilegeDao.ModifyImpliesView | dao/db/privilege.go:63-89 | whoever passes the modify check passes the view check |
| PrivilegeDao.MissingGrantAsymmetry | dao/db/privilege.go:63-89 | without a grant the modify check says false while the view check fails with "no rows" |
| PrivilegeDao.FirstOrgGrantDecidesChecks | dao/db/privilege.go:63-89 | both checks are decided by the grant `QueryPrivilegeByUserHash` returns |
| PrivilegeDao.FirstGrantQueried | dao/db/privilege.go:128-138 | the first active grant in table order is the one the single-grant query returns |
| PrivilegeDao.ActiveGrantsAgree | dao/db/privilege.go:140-147 | tables matching pointwise alike hold equally many active grants |
| PrivilegeDao.ActiveGrantsAppend | dao/db/privilege.go:42-49 | an insert adds one active grant for its key and none for any other key |
| PrivilegeDao.AppendedGrantIsOnly | dao/db/privilege.go:42-49 | a grant inserted where none existed becomes the first and only one |
| PrivilegeDao.RelevelKeepsGrants | dao/db/privilege.go:140-147 | a level update keeps the first grant in place with the new level and keeps their number |
| PrivilegeDao.DeletePrivilege | dao/db/privilege.go:91-98 | the table becomes `ResourceRevoked`: every active grant on the resource soft-deleted, the other rows alone; afterwards the resource has no grants |
| PrivilegeDao.ResourceRevoked | dao/db/privilege.go:91-98 | the table after the revocation: same length, the active grants on the resource soft-deleted, every other row unchanged |
| PrivilegeDao.ListPrivilege | dao/db/privilege.go:100-108 | a user's active MODIFIER and VIEWER grants on ORG, PROJECT or ITEM resources; never a PULLER grant |
| PrivilegeDao.ListPrivilegeByResource | dao/db/privilege.go:110-117 | exactly the active grants on one resource |
| PrivilegeDao.QueryPrivilegeByUserHash | dao/db/privilege.go:128-138 | the user's first active grant on the resource, or nil when there is none |
| PrivilegeDao.UpdatePrivilegeByUserHash | dao/db/privilege.go:140-147 | sets the level of every grant row of the user on the resource, soft-deleted ones included (the statement has no `is_deleted` filter); no other row and no other field changes; on success the table is `Relevelled` of the old one |
| PrivilegeDao.Relevelled | dao/db/privilege.go:141 | the rows after the level update: same length, every row of the key (deleted or not) with the new level, every other row unchanged |
| PrivilegeDao.DeletePrivilegeByUserHash | dao/db/privilege.go:149-156 | soft-deletes every active grant of the user on the resource and nothing else; afterwards the query finds none |
| PrivilegeDao.ValidateUserForProjectCreation | dao/db/privilege.go:158-164 | the view check: VIEWER or higher on the org may create projects in it |
| PrivilegeDao.ValidateForUserModifyProject | dao/db/privilege.go:166-184 | true exactly when the user holds any active grant on the project, or passes the modify check on the org |
| PrivilegeDao.PullerProjectGrantAuthorizesModify | dao/db/privilege.go:166-184 | a PULLER grant on a project already grants modify rights on it |
| PrivilegeDao.NoGrantNoProjectModify | dao/db/privilege.go:166-184 | without a grant on the project or the org, the project check is false |
| OrgDao.GetOrgById | dao/db/org.go:11-23 | the first active org with the id; "no rows" is nil, not an error; a deleted org is never returned |
| OrgDao.GetOrgByName | dao/db/org.go:25-37 | the first active org with the name, or nil |
| OrgDao.FoundOrgIdIssued | dao/db/org.go:11-23 | an org the lookup finds has an id the counter already handed out |
| OrgDao.IsExistingOrgByName | dao/db/org.go:47-56 | true exactly when an active org has the name |
| OrgDao.IsExistingOrgById | dao/db/org.go:58-67 | true exactly when an active org has the id |
| OrgDao.CreateOrg | dao/db/org.go:69-80 | appends one active org under a fresh id, with no name check of its own; afterwards the lookup by id finds it |
| OrgDao.OrgVisibilityCode | dao/db/org.go:83-86 | the code an org update writes is 0 or 1, and 1 exactly when `private` is true |
| OrgDao.UpdateOrg | dao/db/org.go:82-93 | the table becomes `SetVisibility` of the old one; the lookup then finds the same org with the new visibility, and nothing changes when none exists |
| OrgDao.SetVisibility | dao/db/org.go:82-93 | the table after the update: same length, only the matching active rows changed, and only in visibility |
| OrgDao.SetVisibilityLookup | dao/db/org.go:82-93 | after the update the lookup finds the previously found row with the new visibility |
| OrgDao.DeleteOrg | dao/db/org.go:95-103 | the table becomes `SoftDeleted` of the old one: every row with the id, without an `is_deleted` filter, so repeating it changes nothing; the lookup then finds none |
| OrgDao.SoftDeleted | dao/db/org.go:95-103 | the table after the delete: same length, every row with the id marked deleted, every other row unchanged |
| OrgDao.ActiveOrgsNamed | dao/db/org.go:104-134 | the active orgs whose name is in the set |
| OrgDao.ListOrg | dao/db/org.go:104-134 | an empty name list returns an empty result without a query; otherwise the active orgs named, in table order |
| ProjectDao.GetProjectById | dao/db/project.go:28-38 | the first active project with the id, or nil |
| ProjectDao.GetProjectByParentIdAndName | dao/db/project.go:40-50 | the first active project of the org with the name, or nil |
| ProjectDao.ListProject | dao/db/project.go:52-59 | exactly the active projects of the org |
| ProjectDao.ListProjectByVisibility | dao/db/project.go:61-78 | the org's projects split into the public (1) and the private (0) ones, each in table order |
| ProjectDao.VisibilitySplitBound | dao/db/project.go:61-78 | the two parts never hold more than all projects, and hold all of them when every visibility is 0 or 1 |
| ProjectDao.CreateProject | dao/db/project.go:80-98 | refuses a (parent, name) already taken; otherwise appends one active project under a fresh id, which both lookups then find |
| ProjectDao.ProjectVisibilityCode | dao/db/project.go:101-106 | the code a project update writes is 0 or 1, and 1 exactly for the string `"false"` (any other string keeps the zero value) |
| ProjectDao.UpdateProject | dao/db/project.go:100-113 | `"true"` and any other string store 0 and only `"false"` stores 1; the table becomes `SetVisibility` of the old one, so only the matching active project changes |
| ProjectDao.SetVisibility | dao/db/project.go:100-113 | the table after the update: only the matching active rows differ, and only in visibility |
| ProjectDao.SetVisibilityLookup | dao/db/project.go:100-113 | after the update the lookup finds the previously found project with the new visibility |
| UserDao.GetUserByUserHash | dao/db/user.go:10-18 | the first active user with the hash; "no rows" stays an error |
| UserDao.GetUserByUserId | dao/db/user.go:20-28 | the first active user with the id; "no rows" stays an error |
| UserDao.ActiveUsersWithIds | dao/db/user.go:30-59 | the active users whose id is in the set, at most one entry per user row |
| UserDao.ListUserByIds | dao/db/user.go:30-59 | an empty id list returns an empty result without a query; otherwise the active users with those ids in table order, one per user even for a repeated id |
| Utils.PrivilegeTypeLabel | utils/utils.go:24-34 | "puller", "viewer" and "modifier" exactly for the three levels, "unknown_privilege_type" exactly for every other code |
| Utils.VisibilityLabel | utils/utils.go:51-58 | "private" exactly for 0, "public" exactly for 1, "unknown_visibility_type" exactly otherwise (the same mapping at utils/utils.go:70-77) |
| Utils.PairedByIndex | utils/utils.go:18-43 | as written: nil exactly for no grants, a panic exactly when there are fewer users than grants, otherwise entry `k` carries grant `k`'s id and label and user `k`'s id and name |
| Utils.PrivilegeLabelsDistinct | utils/utils.go:24-34 | the three levels get three distinct labels, and every other code gets the same one |
| Utils.OrgVisibilityDisplayInverted | utils/utils.go:70-77 | an org stored with `private = true` is labelled "public", and with false "private" |
| Utils.ProjectVisibilityDisplay | utils/utils.go:51-58 | a project is labelled "public" exactly when its request said `"false"` |
| Utils.GetPrivilegeUserInfo | utils/utils.go:18-43 | as written: nil for no grants, a panic for fewer users than grants, otherwise grant `k` beside user `k` |
| Utils.UserWithId | utils/utils.go:38-39 | the user carrying the id, and `None` exactly when none does |
| Utils.HolderEntry | utils/utils.go:35-40 | the entry shows the grant's id, its level label, its holder's id, and the name of the user found by that id, or an empty name when the list holds no such user |
| Utils.HolderInfo | utils/utils.go:18-43 | nil exactly for no grants; otherwise one entry per grant, in grant order, each the `HolderEntry` of its grant: its own holder's id and name |
| Utils.GetPrivilegeUserInfoByHolder | utils/utils.go:18-43 | the corrected loop computes `HolderInfo` |
| Utils.IndexPairingAgreesWhenAligned | utils/utils.go:35-40 | when user `k` holds grant `k` and ids are distinct, the index pairing gives the corrected entries |
| Utils.IndexPairingMisattributes | utils/utils.go:35-40 | two grants listed out of user order: the index pairing shows the wrong holder's id, the corrected entry the right one |
| Utils.IndexPairingPanicsOnRepeatedHolder | utils/utils.go:35-40 | two grants of one user: one user row comes back and the index pairing panics, while the corrected one names the holder |
| Utils.ProjectInfo | utils/utils.go:45-67 | nil exactly for no projects; otherwise one entry per project, in order, with id, name, parent and visibility label |
| Utils.GetProjectInfo | utils/utils.go:45-67 | the loop computes `ProjectInfo` |
| Utils.GetOrgInfo | utils/utils.go:69-91 | id, name, visibility label, access mode "modifier" always, and each list key present exactly when the list is non-nil |
| OrgService.ParsePrivilegeType | service/org_service.go:254-263 | only "modifier", "viewer" and "puller" parse, each to its level |
| OrgService.ParseLabelRoundTrip | service/org_service.go:254-263 | a word parses to a level exactly when it is that level's label, so parsing inverts the detail view's labels |
| OrgService.CreationOwner | service/org_service.go:15-28 | the checks in order: caller, name under 85 bytes of UTF-8, name not taken by an active org; the first failure decides the error |
| OrgService.WideNameTooLong | service/org_service.go:19 | a 29-character CJK name has fewer than 85 characters but is refused as too long |
| OrgService.CreateOrg | service/org_service.go:14-54 | failed checks write nothing; a driver failing at the org insert writes nothing; one failing at the grant leaves the new org with no grant on it; otherwise the table gains exactly the org and the creator's MODIFIER grant, the creator has modify rights, and the label is inverted |
| OrgService.CheckCreateOrg | service/org_service.go:15-28 | the checks compute `CreationOwner` |
| OrgService.InsertOwnedOrg | service/org_service.go:29-38 | the writes of a create: the org row, then the creator's grant, each present exactly when the driver reached it |
| OrgService.GrantOrgCreator | service/org_service.go:33-38 | the creator's grant is inserted unless the driver fails, and then gives modify rights on the new org |
| OrgService.UpdateCaller | service/org_service.go:57-72 | caller, org exists, modify check (any failure there is "no permission"); the first failure decides the error |
| OrgService.UpdateOrg | service/org_service.go:56-77 | failed checks write nothing; on success the org table becomes `SetVisibility` of the old one, so only that org's visibility changes |
| OrgService.CheckUpdateOrg | service/org_service.go:57-72 | the checks compute `UpdateCaller` |
| OrgService.DeletionCaller | service/org_service.go:80-87 | caller, then modify check (any failure there is "no permission") |
| OrgService.DeleteOrg | service/org_service.go:79-98 | failed checks write nothing; a driver failing at the first write writes nothing, one failing at the second leaves the org deleted and its grants active; otherwise the org table becomes `SoftDeleted` and the grants `ResourceRevoked`, so projects, PROJECT grants and other orgs are untouched |
| OrgService.RemoveOrg | service/org_service.go:88-93 | the two soft-deletes of a checked delete, the org row and then its ORG grants, each done exactly when the driver reached it |
| OrgService.VisibleOrgs | service/org_service.go:109-118 | the orgs listed: active orgs named by the first segment of some grant |
| OrgService.ListOrg | service/org_service.go:100-128 | the caller's error, or the id and name of each active org named by a MODIFIER or VIEWER grant of the caller |
| OrgService.CollectOrgNames | service/org_service.go:109-112 | the loop takes segment 0 of each grant's resource name |
| OrgService.CollectEntries | service/org_service.go:119-122 | the loop keeps each org's id and name |
| OrgService.NoGrantsNoOrgs | service/org_service.go:109-118 | no grants list no orgs |
| OrgService.ProjectGrantListsOrg | service/org_service.go:109-118 | a grant on a project `org.project` lists its org |
| OrgService.DottedOrgNeverListed | service/org_service.go:109-118 | an org whose name contains a dot is never listed, whatever the caller holds |
| OrgService.PullerOnlyListsNothing | service/org_service.go:105-118 | a user holding only PULLER grants sees no orgs |
| OrgService.PrefixProjectNames | service/org_service.go:198-207 | the prefix query's error is returned as is; otherwise the result is `GrantedProjectNames` of its rows |
| OrgService.GrantedProjectNames | service/org_service.go:202-207 | segment 1 of each grant's name, and a panic exactly when some name has no dot |
| OrgService.GrantedPrivateProjects | service/org_service.go:208-215 | corrected: the private projects whose segment 1 is a granted name |
| OrgService.RepeatedHolderPanicsFirstTier | utils/utils.go:35-40 | fewer holder rows than grants make the first tier as written panic, while the corrected one lists the grants |
| OrgService.PullerProjectsAsWrittenExactly | service/org_service.go:208-218 | the third tier as written shows exactly the org's active public projects and the active private ones whose stored name is a grant segment |
| OrgService.DetailTier | service/org_service.go:131-180 | caller, org exists; then modify rights pick the first tier, view rights the second, a lower grant the third; a caller without any grant gets "no rows" |
| OrgService.CheckSingleOrg | service/org_service.go:131-180 | the checks compute `DetailTier` |
| OrgService.SingleOrg | service/org_service.go:130-228 | as written: the error of the checks, or the tier's detail, with grants paired by index (a panic when holder rows run short) and private projects matched on their stored name |
| OrgService.SingleOrgIntended | service/org_service.go:130-228 | corrected: the same checks and tiers, with each grant beside its own holder and private projects matched on their project segment |
| OrgService.ReadModifierRows | service/org_service.go:151-167 | the reads of the first tier: the org's projects, its active ORG grants and their holders |
| OrgService.ShowToModifierAsWritten | service/org_service.go:150-175 | the first tier as written builds `ModifierDetailAsWritten` |
| OrgService.ShowToViewer | service/org_service.go:181-192 | the second tier builds `ViewerDetail` |
| OrgService.ShowToModifier | service/org_service.go:150-175 | the first tier as corrected builds `ModifierDetail` |
| OrgService.CollectHolderIds | service/org_service.go:160-163 | the loop takes each grant's holder id |
| OrgService.ReadPullerRows | service/org_service.go:194-207 | the reads of the third tier: the public and private projects of the org and the grant segments, or the prefix query's error, or the panic of a dotless grant name |
| OrgService.ShowToPullerAsWritten | service/org_service.go:193-226 | the third tier as written builds `PullerDetailAsWritten` |
| OrgService.ShowToPuller | service/org_service.go:193-226 | the third tier as corrected builds `PullerDetail` |
| OrgService.CollectProjectNames | service/org_service.go:202-207 | the loop computes `GrantedProjectNames`, panicking where it does |
| OrgService.SelectPrivateAsWritten | service/org_service.go:208-215 | the loops as written keep the private projects whose stored name is a grant segment, in private-project order |
| OrgService.SelectGrantedPrivate | service/org_service.go:208-215 | the loop keeps the corrected selection in private-project order |
| OrgService.IsNamedByGrant | service/org_service.go:209-214 | the inner loop reports whether the project is named by a grant |
| OrgService.PullerProjectsExactly | service/org_service.go:193-226 | corrected, the third tier shows exactly the org's active public projects and its granted active private ones |
| OrgService.AsWrittenHidesQualifiedProjects | service/org_service.go:208-215 | as written, no private project stored under a qualified name is ever shown |
| OrgService.QualifiedGrantShowsPrivateProject | service/org_service.go:208-215 | corrected, a grant on `org.project` shows the private project stored as `org.project` |
| OrgService.AsWrittenDropsGrantedProject | service/org_service.go:204-215 | for the grant `acme.web` and the project `acme.web`, the comparison as written drops it and the corrected one keeps it |
| OrgService.AcmeWebSegments | service/org_service.go:205-206 | segment 1 of `acme.web` is `web` |
| OrgService.AuthorizationTarget | service/org_service.go:231-245 | caller, modify check, target exists, target is not the caller; the first failure decides the error |
| OrgService.NoSelfAuthorization | service/org_service.go:243-245 | a caller can never authorize themself; with modify rights the refusal is the self-authorization error |
| OrgService.AuthorizeOrg | service/org_service.go:230-275 | failed checks write nothing; an unknown type is refused; passed checks with a known type succeed whenever the target holds a grant or the org exists; an existing grant gives exactly the `Relevelled` table with the id counter kept, otherwise exactly one new grant naming the org is appended and the counter advances; afterwards the target's first grant has the new level |
| OrgService.CheckAuthorizeOrg | service/org_service.go:231-245 | the checks compute `AuthorizationTarget` |
| OrgService.AuthorizeTarget | service/org_service.go:246-271 | the part after the checks: parse, look up the org and the target's grant, then update (exactly the `Relevelled` table, counter kept) or insert (exactly one appended grant, counter + 1); a known type succeeds whenever the target holds a grant or the org exists, and a missing org panics on insert |
| OrgService.ChangeOrgGrant | service/org_service.go:264-265 | the table becomes `Relevelled` of the old one: every grant row of the target on the org re-levelled and nothing else; the first active one now has the new level and the number of active ones is kept |
| OrgService.InsertOrgGrant | service/org_service.go:266-267 | inserts the grant carrying the org's name and visibility, which becomes the target's only and first grant |
| OrgService.AuthorizeViewerThenModifier | service/org_service.go:230-275 | "viewer" then "modifier" both succeeding leave the target at MODIFIER, with modify rights and no extra grant |
| OrgService.AuthorizeAsViewer | service/org_service.go:230-275 | a successful "viewer" authorization leaves the target at VIEWER |
| OrgService.PromoteToModifier | service/org_service.go:230-275 | a successful "modifier" authorization of a VIEWER leaves them at MODIFIER with modify rights |
| OrgService.RevocationTarget | service/org_service.go:278-293 | caller, target exists, modify check, target holds a grant; the first failure decides the error |
| OrgService.DeleteAuthorizeOrg | service/org_service.go:277-299 | failed checks write nothing; on success every active grant of the target on the org is soft-deleted and nothing else, after which the target fails both checks |
| OrgService.RevokeOrgGrant | service/org_service.go:294-297 | the revocation write and its consequences for both checks |
| OrgService.CheckDeleteAuthorizeOrg | service/org_service.go:278-293 | the checks compute `RevocationTarget` |
| ProjectService.CreatedLabel | service/project_service.go:36-41 | "private" exactly for a stored 0, "public" for any other code |
| ProjectService.CreatedLabelOfRequest | service/project_service.go:36-41 | the created project is labelled "private" unless the request said `"false"` |
| ProjectService.CreationParent | service/project_service.go:14-25 | caller, view rights on the org (any error is "no permission"), org present (a missing org panics) |
| ProjectService.CreateProject | service/project_service.go:13-52 | failed checks write nothing; a taken name or a driver failing at the insert fails with the create error and writes nothing; a driver failing at the grant leaves the new project `org.project` with no grant on it; otherwise exactly the project and the creator's MODIFIER grant are added, after which the creator owns it |
| ProjectService.CheckCreateProject | service/project_service.go:14-25 | the checks compute `CreationParent` |
| ProjectService.InsertOwnedProject | service/project_service.go:26-35 | the project insert, then the creator's grant, each present exactly when the name was free and the driver reached it |
| ProjectService.GrantCreator | service/project_service.go:30-35 | the creator's grant is inserted unless the driver fails, and then exists and gives modify rights on the project |
| ProjectService.UpdateTarget | service/project_service.go:55-66 | caller, project exists, project modify check against the project's own org |
| ProjectService.UpdateProject | service/project_service.go:54-75 | failed checks write nothing; on success the project table becomes `SetVisibility` of the old one, so only that project's visibility changes |
| ProjectService.CheckUpdateProject | service/project_service.go:55-66 | the checks compute `UpdateTarget` |
| ProjectService.CreatorMayUpdate | service/project_service.go:13-75 | the creator of a project passes every check of UpdateProject on it |
| ProjectService.CreatedGrantListsOrg | service/project_service.go:26-31 | after a creation, with dot-free names, the creator's grant is among the grants ListPrivilege returns and ListOrg's `VisibleOrgs` over them contains the org |
| LegacyController.CreateOrg | controller/org_controller.go:76-96 | inserts the org with `private` stored as 1, then re-reads and returns exactly that row |
| LegacyController.ListOrg | controller/org_controller.go:120-138 | no empty-list guard: no names is a syntax error at the server; otherwise the same orgs as the guarded version |
| LegacyController.CreateProject | controller/project_controller.go:72-100 | refuses a taken (parent, name); otherwise inserts the project and returns the re-read row |
| LegacyController.ListUserByIds | controller/user_controller.go:40-58 | no empty-list guard: no ids is a syntax error; otherwise the same users as the guarded version |

## Left out

- The `created_at`, `updated_at` and `current_version_id` columns: nothing in the core reads them.
- Logging (`seelog`): it has no effect on results.
- SQL text and the driver. A statement either runs against the tables or fails with `Unavailable`. Errors the driver could raise for one statement but not another are not distinguished. Concurrency is not modelled.
- OrgService.UpdateOrg, OrgService.AuthorizeOrg, OrgService.DeleteAuthorizeOrg and ProjectService.UpdateProject: a driver failing after their checks but before their one write is not modelled. Such a call would write nothing and report `Unavailable`; these contracts hold the driver's state fixed for the call.
- `ListPrivilegeByPrefixResourceName` (dao/db/privilege.go:119-126). Its pattern literal `'?%'` sits inside quotes, so the parameter never binds. What it returns depends on the driver. `OrgService.SingleOrg` therefore takes its result, rows or an error, as the input `prefixGrants: Result<seq<Privilege>>`; which of the two the driver gives is not modelled.
- The ITEM resource type: it appears only as a value `ListPrivilege` accepts.
- The cache the service marks as still to be cleared after an authorization: that code does not exist.
- `ListProjectByParentId` (dao/db/project.go:115-122) runs the same statement as `ListProject` and is modelled by it.
- `ListAllProject` (controller/org_controller.go:140-148) is likewise modelled by `ProjectDao.ListProject`.
- `QueryOrgById` and `GetUser` (utils/utils.go:10-16) pass their results through unchanged. They are modelled by `OrgDao.GetOrgById` and `UserDao.GetUserByUserHash`.
- The legacy engines' getters, existence checks, updates and deletes run the same statements as the data-access functions. Those are:
  - controller/privilege_controller.go:17-180;
  - controller/org_controller.go:18-74 and 98-119;
  - controller/project_controller.go:17-70;
  - controller/user_controller.go:18-38.
  Their engine constructors build stateless values. The model shares the data-access members for all of these.
- `nil` list arguments to the data-access functions: every caller in the core passes a non-nil list.
- The Chinese error messages: each check's failure is its own `Error` constructor instead.
- OrgService.AuthorizeViewerThenModifier, OrgService.AuthorizeAsViewer and OrgService.PromoteToModifier: they exist only to state the two-call property. The source has no such operation.

## Findings

| source | as written | input that shows it | evidently intended | confidence | as-written member | corrected member |
|---|---|---|---|---|---|---|
| utils/utils.go:35-40 | entry `k` of the grant list shows the id and name of the `k`-th user of `ListUserByIds`. That list is in user-table order, has one row per user and drops deleted users. | Grants of users 2 then 1 show each other's names. Two grants of one user give one user row and an index out of range. | each grant is shown with the user whose id it carries | not executed | Utils.GetPrivilegeUserInfo, Utils.IndexPairingMisattributes, Utils.IndexPairingPanicsOnRepeatedHolder, OrgService.RepeatedHolderPanicsFirstTier, OrgService.SingleOrg | Utils.GetPrivilegeUserInfoByHolder, Utils.HolderInfo, OrgService.SingleOrgIntended |
| service/org_service.go:208-215 | a private project is kept when its stored name equals segment 1 of a grant's name. CreateProject stores projects as `org.name`, which always contains a dot, while segment 1 never does. | The grant `acme.web` and the private project stored as `acme.web`: the project is not shown. | a project is kept when segment 1 of its stored name is segment 1 of a grant's name | not executed | OrgService.PullerProjectsAsWrittenExactly, OrgService.AsWrittenHidesQualifiedProjects, OrgService.AsWrittenDropsGrantedProject, OrgService.SingleOrg | OrgService.GrantedPrivateProjects, OrgService.QualifiedGrantShowsPrivateProject, OrgService.PullerProjectsExactly, OrgService.SingleOrgIntended |
