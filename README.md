# CRediT contributor-roles registry

A Dafny model of the CRediT (ANSI/NISO Z39.104-2022) role registry of the
grail-mcp credit module. It covers:

- the 14 credit-role identifiers;
- the 14 governance-role identifiers, in three tiers (`governance.*`, `ops.*`, `qa.*`);
- the credit-to-governance map;
- the table of the 14 role records (id, category, governance role, dependencies, workflow order);
- the five read-only queries over that table;
- the minified projection of the table.

Two modules:

- `CreditRoles` (`roles.dfy`) holds the data and the queries.
  - Lookup, filtering and the map are functions.
  - `getCreditRole` is a method with the source's loop over the map's entries.
  - `getRolesInWorkflowOrder` is a method that copies the table into a fresh array and sorts it in place.
- `CreditRolesProperties` (`roles_properties.dfy`) proves what the registry relies on but never checks:
  - the map is a bijection that agrees with the records;
  - governance tiers match categories;
  - workflow orders are 1..14 and dependencies always point earlier, so the dependency graph is acyclic;
  - lookups by id are total;
  - the category filter gives exact results in declaration order;
  - the sorted copy is the table itself;
  - the minified projection loses nothing.

Identifiers are datatypes. The string each one is at run time is given by `CreditRoleName`, `GovernanceRoleName` and `CategoryName`. `getRoleDefinition` compares strings with `===`, so the model searches by `CreditRoleName`, and `CreditRoleNamesInjective` shows this is the same as comparing ids. The category spelled `'validation'` is the constructor `Oversight`, so that it does not clash with the credit role `Validation`.

## Model

| member | source | states |
|---|---|---|
| CreditRoles.AllCreditRolesListed | workspace/src/grail-mcp/credit/roles.ts:19-61 | every credit role appears in the enumeration of the 14 roles |
| CreditRoles.MapIsTotal | workspace/src/grail-mcp/credit/roles.ts:143-158 | every credit role is a key of the credit-to-governance map (the `Record<CreditRoleId, …>` typing) |
| CreditRoles.FirstCreditRoleFor | workspace/src/grail-mcp/credit/roles.ts:352-359 | the reverse lookup over a key list: a result is a listed key that maps to `g`; no result exactly when no listed key maps to `g` |
| CreditRoles.ScanEntries | workspace/src/grail-mcp/credit/roles.ts:353-358 | the entry loop returns the first key in visiting order whose governance role equals `g`, or nothing when none does |
| CreditRoles.GetCreditRole | workspace/src/grail-mcp/credit/roles.ts:352-359 | `getCreditRole` returns the first credit role, in entry order, that maps to `g`; undefined only if no credit role maps to `g` |
| CreditRoles.GovernanceOwner | workspace/src/grail-mcp/credit/roles.ts:143-158 | every governance role is the image of some credit role |
| CreditRoles.Swap | workspace/src/grail-mcp/credit/roles.ts:365 | an exchange step of the in-place sort: only the two positions change, and the multiset is kept |
| CreditRoles.SortByWorkflowOrder | workspace/src/grail-mcp/credit/roles.ts:365 | the in-place sort by ascending `workflowOrder` leaves the array sorted and a permutation of what it held |
| CreditRoles.GetRolesInWorkflowOrder | workspace/src/grail-mcp/credit/roles.ts:364-366 | returns a fresh array, sorted by workflow order, holding the catalog's records as a permutation; the catalog is a constant and is left as it was |
| CreditRoles.CategoryCode | workspace/src/grail-mcp/credit/roles.ts:385 | `category[0]` is one of 's', 'o', 'v' |
| CreditRoles.MinifyAll | workspace/src/grail-mcp/credit/roles.ts:383-389 | the projection has one element per record and element `i` is the projection of record `i` |
| CreditRoles.CategoryOfCode | workspace/src/grail-mcp/credit/roles.ts:385 | reading a code back gives a category whose code is that character |
| CreditRolesProperties.CreditRoleNamesInjective | workspace/src/grail-mcp/credit/roles.ts:19-61 | distinct credit roles have distinct strings, so string `===` identifies the role |
| CreditRolesProperties.MapIsInjective | workspace/src/grail-mcp/credit/roles.ts:143-158 | no two credit roles map to the same governance role |
| CreditRolesProperties.MapIsBijection | workspace/src/grail-mcp/credit/roles.ts:143-158 | the map is total, one-to-one, and every governance role is among its values |
| CreditRolesProperties.FirstCreditRoleForFinds | workspace/src/grail-mcp/credit/roles.ts:353-358 | scanning any key list that contains `c` for `c`'s governance role finds `c` itself |
| CreditRolesProperties.CreditRoleRoundTrip | workspace/src/grail-mcp/credit/roles.ts:345-359 | `getCreditRole(getGovernanceRole(c)) == c` for every credit role |
| CreditRolesProperties.GovernanceRoleRoundTrip | workspace/src/grail-mcp/credit/roles.ts:345-359 | `getCreditRole(g)` is never undefined, and `getGovernanceRole(getCreditRole(g)) == g` |
| CreditRolesProperties.CatalogIdsDistinct | workspace/src/grail-mcp/credit/roles.ts:167-322 | the table has 14 records with pairwise distinct ids |
| CreditRolesProperties.PositionOf | workspace/src/grail-mcp/credit/roles.ts:167-322 | every credit role has a record in the table, at a position in range |
| CreditRolesProperties.RecordAgreesWithMap | workspace/src/grail-mcp/credit/roles.ts:143-322 | the record at position `i` has the governance role the map gives its id |
| CreditRolesProperties.RecordsAgreeWithMap | workspace/src/grail-mcp/credit/roles.ts:143-322 | every record's `governanceRole` equals `CREDIT_TO_GOVERNANCE_MAP[id]` |
| CreditRolesProperties.TierOfGovernanceRole | workspace/src/grail-mcp/credit/roles.ts:115-135 | each governance-role string's prefix names its tier: four `governance.*`, eight `ops.*`, two `qa.*` |
| CreditRolesProperties.GovernanceTierMatchesCategory | workspace/src/grail-mcp/credit/roles.ts:103-135 | each record's governance role is in the tier of its category: structural to `governance.`, operational to `ops.`, validation to `qa.` |
| CreditRolesProperties.FindRoleSound | workspace/src/grail-mcp/credit/roles.ts:331-333 | what `find` returns is a record of the table whose id string is the key |
| CreditRolesProperties.FindRoleFirst | workspace/src/grail-mcp/credit/roles.ts:331-333 | `find` returns the first record whose id string is the key |
| CreditRolesProperties.FindRoleNone | workspace/src/grail-mcp/credit/roles.ts:331-333 | `find` comes back undefined exactly when no record's id string is the key (both directions) |
| CreditRolesProperties.FindRoleFindsRecord | workspace/src/grail-mcp/credit/roles.ts:331-333 | over records with distinct ids, looking up record `i`'s id returns record `i` |
| CreditRolesProperties.GetRoleDefinitionIsTotal | workspace/src/grail-mcp/credit/roles.ts:331-333 | `getRoleDefinition(c)` is defined for every credit role and returns the record with id `c` |
| CreditRolesProperties.SoftwareIsSoftwareEngineering | workspace/src/grail-mcp/credit/roles.ts:256-266 | the lookup of 'software' returns the ninth record, whose governance role is `ops.software-engineering` |
| CreditRolesProperties.UnknownNameNotFound | workspace/src/grail-mcp/credit/roles.ts:331-333 | a key that is no credit role's string finds nothing |
| CreditRolesProperties.NotARoleNotFound | workspace/src/grail-mcp/credit/roles.ts:331-333 | looking up "not_a_role" gives undefined |
| CreditRolesProperties.FilterByCategoryMembers | workspace/src/grail-mcp/credit/roles.ts:338-340 | `filter` keeps exactly the records of the category asked for, and never lengthens the list |
| CreditRolesProperties.FilterByCategoryConcat | workspace/src/grail-mcp/credit/roles.ts:338-340 | `filter` distributes over concatenation, so it keeps relative order |
| CreditRolesProperties.AllInCategory | workspace/src/grail-mcp/credit/roles.ts:338-340 | filtering records that all have the category keeps them all |
| CreditRolesProperties.NoneInCategory | workspace/src/grail-mcp/credit/roles.ts:338-340 | filtering records none of which has the category gives the empty list |
| CreditRolesProperties.FilterCatalogRuns | workspace/src/grail-mcp/credit/roles.ts:338-340 | filtering a table with the catalog's category layout, as five runs of one category each |
| CreditRolesProperties.FilterCatalogStructural | workspace/src/grail-mcp/credit/roles.ts:338-340 | on a table with the catalog's layout, the structural filter gives records 0..3 |
| CreditRolesProperties.FilterCatalogOperational | workspace/src/grail-mcp/credit/roles.ts:338-340 | on a table with the catalog's layout, the operational filter gives records 4..9 then 11..12 |
| CreditRolesProperties.FilterCatalogOversight | workspace/src/grail-mcp/credit/roles.ts:338-340 | on a table with the catalog's layout, the validation filter gives records 10 and 13 |
| CreditRolesProperties.StructuralRoles | workspace/src/grail-mcp/credit/roles.ts:167-211 | `getRolesByCategory('structural')` is conceptualization, methodology, funding acquisition and project administration, in that order |
| CreditRolesProperties.OperationalRoles | workspace/src/grail-mcp/credit/roles.ts:212-310 | `getRolesByCategory('operational')` is the eight operational records in declaration order, skipping validation |
| CreditRolesProperties.ValidationTierRoles | workspace/src/grail-mcp/credit/roles.ts:278-322 | `getRolesByCategory('validation')` is exactly the validation and supervision records, in that order |
| CreditRolesProperties.WorkflowOrdersAreOneToFourteen | workspace/src/grail-mcp/credit/roles.ts:96-97 | the record at position `i` has workflow order `i + 1`, so the orders are 1..14 and distinct |
| CreditRolesProperties.DependencyPositionsEarlier | workspace/src/grail-mcp/credit/roles.ts:92-94 | every dependency of a record names a record declared before it |
| CreditRolesProperties.DependencyPrecedes | workspace/src/grail-mcp/credit/roles.ts:92-97 | every dependency of the record at position `i` has a record, and that record's workflow order is smaller |
| CreditRolesProperties.DependencyComesEarlier | workspace/src/grail-mcp/credit/roles.ts:92-97 | a dependency of `c` has a record and comes strictly earlier in the workflow than `c` |
| CreditRolesProperties.DependencyPathDescends | workspace/src/grail-mcp/credit/roles.ts:92-97 | along a chain of dependency edges, workflow order drops by at least one per edge |
| CreditRolesProperties.DependenciesAcyclic | workspace/src/grail-mcp/credit/roles.ts:92-94 | the dependency graph is a DAG: no chain of one or more edges returns to where it began |
| CreditRolesProperties.SortedPermutationUnique | workspace/src/grail-mcp/credit/roles.ts:365 | two sorted arrangements of the same records with distinct orders are equal, so the sort's result does not depend on stability |
| CreditRolesProperties.NumberedIsOnlySortedArrangement | workspace/src/grail-mcp/credit/roles.ts:365 | a list numbered 1, 2, 3, … is the only sorted arrangement of its records |
| CreditRolesProperties.WorkflowOrderIsDeclarationOrder | workspace/src/grail-mcp/credit/roles.ts:364-366 | the only sorted permutation of the catalog is the catalog itself, in orders 1..14 |
| CreditRolesProperties.RolesInWorkflowOrderAreCatalog | workspace/src/grail-mcp/credit/roles.ts:364-366 | `getRolesInWorkflowOrder()` gives the 14 records in declaration order, record `i` having order `i + 1` |
| CreditRolesProperties.CategoryCodeRoundTrip | workspace/src/grail-mcp/credit/roles.ts:385 | the category codes are distinct: reading a category's code back gives that category |
| CreditRolesProperties.MinifyRoundTrip | workspace/src/grail-mcp/credit/roles.ts:383-389 | a minified record expands back to that record, so the projection loses none of the modelled fields |
| CreditRolesProperties.MinifyAllShape | workspace/src/grail-mcp/credit/roles.ts:382-390 | for any table, the projection keeps length and order, copies id, gov, ord and dep, codes cat in {'s','o','v'}, and expands back |
| CreditRolesProperties.MinifiedCatalogShape | workspace/src/grail-mcp/credit/roles.ts:382-390 | the minified catalog has one element per record, in record order, with fields copied, a one-letter category code, and each element expanding back to its record |

## Left out

- `CREDIT_TO_GOVERNANCE_JSON` and the `JSON.stringify` step of `CREDIT_ROLES_MINIFIED` (lines 375-390): the model stops at the list of minified objects, because their text encoding is the runtime's JSON serializer.
- The free-text fields `name`, `nameCN`, `description` and `descriptionCN` of each record: no query reads them, so they are left out.
- The constant-name keys of `CREDIT_ROLES` and `GOVERNANCE_ROLES` (e.g. `CONCEPTUALIZATION`), and the TypeScript types derived with `as const`: the model uses datatypes for the value sets.
- The order in which `Object.entries` visits the map: it is taken to be the map literal's key order, which equals `CreditRoleIds`, because string keys that are not integers are visited in insertion order.
- The copy made by `[...CREDIT_ROLE_DEFINITIONS]` is an array built from the catalog. The catalog is an immutable `seq`, so aliasing between the two cannot arise.
- CreditRoles.SortByWorkflowOrder: does not state stability. The comparator's subtraction is modelled as a `<` comparison on integers: the orders are small, so it never overflows and has no NaN case. Stability has no effect on the catalog's result, because its orders are distinct (see `SortedPermutationUnique`).
- CreditRoles.GetRolesInWorkflowOrder: its contract gives sortedness and permutation. The exact result, the catalog in declaration order, is proved separately in `RolesInWorkflowOrderAreCatalog`.
