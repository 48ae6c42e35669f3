/**
 * Invariants of the CRediT registry's data that the registry itself never
 * checks, and the properties of its queries that follow from them.
 */
module CreditRolesProperties {
  import opened CreditRoles

  // --------------------------------------------------------------------------
  // Identifiers
  // --------------------------------------------------------------------------

  /** Distinct credit roles are distinct strings, so `===` on strings tells them apart. */
  lemma CreditRoleNamesInjective(c1: CreditRoleId, c2: CreditRoleId)
    ensures CreditRoleName(c1) == CreditRoleName(c2) ==> c1 == c2
  {
    if CreditRoleName(c1) == CreditRoleName(c2) {
      var n := CreditRoleName(c1);
      assert |n| == |CreditRoleName(c2)| && n[0] == CreditRoleName(c2)[0];
      match c1
      case Conceptualization =>
      case DataCuration =>
      case FormalAnalysis =>
      case FundingAcquisition =>
      case Investigation =>
      case Methodology =>
      case ProjectAdministration =>
      case Resources =>
      case Software =>
      case Supervision =>
      case Validation =>
        assert n[1] == CreditRoleName(c2)[1];
      case Visualization =>
      case WritingOriginalDraft =>
      case WritingReviewEditing =>
    }
  }

  /** The tier a governance-role string names, read from its dotted prefix. */
  function TierOfName(name: string): Option<Category> {
    if "governance." <= name then Some(Structural)
    else if "ops." <= name then Some(Operational)
    else if "qa." <= name then Some(Oversight)
    else None
  }

  // --------------------------------------------------------------------------
  // The credit-to-governance map
  // --------------------------------------------------------------------------

  /** No two credit roles share a governance role. */
  lemma MapIsInjective(c1: CreditRoleId, c2: CreditRoleId)
    ensures GetGovernanceRole(c1) == GetGovernanceRole(c2) ==> c1 == c2
  {
    match c1
    case Conceptualization =>
    case DataCuration =>
    case FormalAnalysis =>
    case FundingAcquisition =>
    case Investigation =>
    case Methodology =>
    case ProjectAdministration =>
    case Resources =>
    case Software =>
    case Supervision =>
    case Validation =>
    case Visualization =>
    case WritingOriginalDraft =>
    case WritingReviewEditing =>
  }

  /** The map is total, one-to-one and onto the 14 governance roles. */
  lemma MapIsBijection()
    ensures forall c :: c in CreditToGovernanceMap
    ensures forall c1, c2 :: GetGovernanceRole(c1) == GetGovernanceRole(c2) ==> c1 == c2
    ensures forall g :: g in CreditToGovernanceMap.Values
  {
    forall c ensures c in CreditToGovernanceMap { MapIsTotal(c); }
    forall c1, c2 ensures GetGovernanceRole(c1) == GetGovernanceRole(c2) ==> c1 == c2 {
      MapIsInjective(c1, c2);
    }
    forall g ensures g in CreditToGovernanceMap.Values {
      var c := GovernanceOwner(g);
      MapIsTotal(c);
      assert CreditToGovernanceMap[c] == g;
    }
  }

  /** Scanning any list that holds `c` finds `c` first for `c`'s governance role. */
  lemma {:induction false} FirstCreditRoleForFinds(keys: seq<CreditRoleId>, c: CreditRoleId)
    requires c in keys
    ensures FirstCreditRoleFor(keys, GetGovernanceRole(c)) == Some(c)
  {
    if keys[0] == c {
    } else {
      MapIsInjective(keys[0], c);
      FirstCreditRoleForFinds(keys[1..], c);
    }
  }

  /** The reverse lookup undoes the forward one: `getCreditRole(getGovernanceRole(c)) == c`. */
  lemma CreditRoleRoundTrip(c: CreditRoleId)
    ensures FirstCreditRoleFor(CreditRoleIds, GetGovernanceRole(c)) == Some(c)
  {
    AllCreditRolesListed();
    FirstCreditRoleForFinds(CreditRoleIds, c);
  }

  /**
   * The reverse lookup never comes back empty, and the forward lookup undoes
   * it: `getGovernanceRole(getCreditRole(g)) == g`.
   */
  lemma GovernanceRoleRoundTrip(g: GovernanceRoleId)
    ensures FirstCreditRoleFor(CreditRoleIds, g).Some?
    ensures GetGovernanceRole(FirstCreditRoleFor(CreditRoleIds, g).value) == g
  {
    CreditRoleRoundTrip(GovernanceOwner(g));
  }

  // --------------------------------------------------------------------------
  // The role records
  // --------------------------------------------------------------------------

  /** The records have 14 distinct ids. */
  lemma CatalogIdsDistinct()
    ensures |RoleDefinitions| == 14
    ensures forall i, j :: 0 <= i < j < |RoleDefinitions| ==> RoleDefinitions[i].id != RoleDefinitions[j].id
  {
  }

  /** Where a credit role's record sits in the catalog: every credit role has one. */
  function PositionOf(c: CreditRoleId): (i: nat)
    ensures i < |RoleDefinitions| && RoleDefinitions[i].id == c
  {
    match c
    case Conceptualization => 0
    case Methodology => 1
    case FundingAcquisition => 2
    case ProjectAdministration => 3
    case Resources => 4
    case Investigation => 5
    case DataCuration => 6
    case FormalAnalysis => 7
    case Software => 8
    case Visualization => 9
    case Validation => 10
    case WritingOriginalDraft => 11
    case WritingReviewEditing => 12
    case Supervision => 13
  }

  /** The record at position `i` carries the governance role the map gives its id. */
  lemma RecordAgreesWithMap(i: nat)
    requires i < |RoleDefinitions|
    ensures RoleDefinitions[i].governanceRole == GetGovernanceRole(RoleDefinitions[i].id)
  {
  }

  /** Each record's governance role is the one the map gives its id. */
  lemma RecordsAgreeWithMap()
    ensures forall i :: 0 <= i < |RoleDefinitions| ==>
              RoleDefinitions[i].governanceRole == GetGovernanceRole(RoleDefinitions[i].id)
  {
    forall i | 0 <= i < |RoleDefinitions|
      ensures RoleDefinitions[i].governanceRole == GetGovernanceRole(RoleDefinitions[i].id)
    {
      RecordAgreesWithMap(i);
    }
  }

  /**
   * Each record's governance role sits in the tier of the record's category:
   * structural roles map to `governance.*`, operational ones to `ops.*` and
   * validation ones to `qa.*`.
   */
  lemma GovernanceTierMatchesCategory()
    ensures forall i :: 0 <= i < |RoleDefinitions| ==>
              TierOfName(GovernanceRoleName(RoleDefinitions[i].governanceRole)) == Some(RoleDefinitions[i].category)
  {
    forall i | 0 <= i < |RoleDefinitions|
      ensures TierOfName(GovernanceRoleName(RoleDefinitions[i].governanceRole)) == Some(RoleDefinitions[i].category)
    {
      TierOfGovernanceRole(RoleDefinitions[i].governanceRole);
    }
  }

  /** The tier each governance role's prefix names. */
  lemma TierOfGovernanceRole(g: GovernanceRoleId)
    ensures TierOfName(GovernanceRoleName(g)) ==
      if g.GovernanceArchitecture? || g.GovernanceMethodDesign? ||
         g.GovernanceExecutionOrchestration? || g.GovernanceResourceAllocation? then Some(Structural)
      else if g.QaValidation? || g.QaSupervision? then Some(Oversight)
      else Some(Operational)
  {
    var n := GovernanceRoleName(g);
    if g.GovernanceArchitecture? || g.GovernanceMethodDesign? ||
       g.GovernanceExecutionOrchestration? || g.GovernanceResourceAllocation? {
      assert n[..11] == "governance.";
    } else if g.QaValidation? || g.QaSupervision? {
      assert n[..3] == "qa." && n[0] != 'g' && n[0] != 'o';
    } else {
      assert n[..4] == "ops." && n[0] != 'g';
    }
  }

  // --------------------------------------------------------------------------
  // getRoleDefinition
  // --------------------------------------------------------------------------

  /** What the search returns is a record of `defs` with the id asked for. */
  lemma {:induction false} FindRoleSound(defs: seq<RoleDefinition>, key: string)
    ensures FindRole(defs, key).Some? ==>
              FindRole(defs, key).value in defs && CreditRoleName(FindRole(defs, key).value.id) == key
  {
    if defs != [] && CreditRoleName(defs[0].id) != key {
      FindRoleSound(defs[1..], key);
    }
  }

  /** The search returns the first record with the id asked for. */
  lemma {:induction false} FindRoleFirst(defs: seq<RoleDefinition>, key: string, i: nat)
    requires i < |defs| && CreditRoleName(defs[i].id) == key
    requires forall j :: 0 <= j < i ==> CreditRoleName(defs[j].id) != key
    ensures FindRole(defs, key) == Some(defs[i])
  {
    if i > 0 {
      assert CreditRoleName(defs[0].id) != key;
      assert forall j :: 0 <= j < i - 1 ==> defs[1..][j] == defs[j + 1];
      FindRoleFirst(defs[1..], key, i - 1);
    }
  }

  /** The search comes back empty exactly when no record has the id asked for. */
  lemma {:induction false} FindRoleNone(defs: seq<RoleDefinition>, key: string)
    ensures FindRole(defs, key).None? <==> forall i :: 0 <= i < |defs| ==> CreditRoleName(defs[i].id) != key
  {
    if defs != [] {
      FindRoleNone(defs[1..], key);
      assert forall i :: 1 <= i < |defs| ==> defs[i] == defs[1..][i - 1];
    }
  }

  /** No two records of `defs` share an id. */
  ghost predicate DistinctIds(defs: seq<RoleDefinition>) {
    forall j, k :: 0 <= j < k < |defs| ==> defs[j].id != defs[k].id
  }

  /** Over records with distinct ids, the search by a record's id finds that record. */
  lemma FindRoleFindsRecord(defs: seq<RoleDefinition>, i: nat)
    requires i < |defs| && DistinctIds(defs)
    ensures FindRole(defs, CreditRoleName(defs[i].id)) == Some(defs[i])
  {
    forall j | 0 <= j < i ensures CreditRoleName(defs[j].id) != CreditRoleName(defs[i].id) {
      CreditRoleNamesInjective(defs[j].id, defs[i].id);
    }
    FindRoleFirst(defs, CreditRoleName(defs[i].id), i);
  }

  /** `getRoleDefinition` is defined for every credit role and returns that role's record. */
  lemma GetRoleDefinitionIsTotal(c: CreditRoleId)
    ensures GetRoleDefinition(c) == Some(RoleDefinitions[PositionOf(c)])
    ensures GetRoleDefinition(c).value.id == c
  {
    CatalogIdsDistinct();
    FindRoleFindsRecord(RoleDefinitions, PositionOf(c));
  }

  /** The software record maps to software engineering. */
  lemma SoftwareIsSoftwareEngineering()
    ensures GetRoleDefinition(Software) == Some(RoleDefinitions[8])
    ensures GetRoleDefinition(Software).value.governanceRole == OpsSoftwareEngineering
  {
    GetRoleDefinitionIsTotal(Software);
  }

  /** A string that names no credit role finds nothing, e.g. "not_a_role". */
  lemma UnknownNameNotFound(key: string)
    requires forall c :: CreditRoleName(c) != key
    ensures FindRole(RoleDefinitions, key) == None
  {
    FindRoleNone(RoleDefinitions, key);
  }

  lemma NotARoleNotFound()
    ensures FindRole(RoleDefinitions, "not_a_role") == None
  {
    forall c ensures CreditRoleName(c) != "not_a_role" {
      assert "not_a_role"[0] == 'n';
    }
    UnknownNameNotFound("not_a_role");
  }

  // --------------------------------------------------------------------------
  // getRolesByCategory
  // --------------------------------------------------------------------------

  /** The filter keeps exactly the records of the category asked for. */
  lemma {:induction false} FilterByCategoryMembers(defs: seq<RoleDefinition>, cat: Category)
    ensures |FilterByCategory(defs, cat)| <= |defs|
    ensures forall x :: x in FilterByCategory(defs, cat) <==> x in defs && x.category == cat
  {
    if defs != [] {
      FilterByCategoryMembers(defs[1..], cat);
      assert defs == [defs[0]] + defs[1..];
    }
  }

  /** The filter works piecewise, so it keeps the records' relative order. */
  lemma {:induction false} FilterByCategoryConcat(a: seq<RoleDefinition>, b: seq<RoleDefinition>, cat: Category)
    ensures FilterByCategory(a + b, cat) == FilterByCategory(a, cat) + FilterByCategory(b, cat)
  {
    if a == [] {
      assert a + b == b;
    } else {
      assert (a + b)[0] == a[0];
      assert (a + b)[1..] == a[1..] + b;
      FilterByCategoryConcat(a[1..], b, cat);
    }
  }

  /** Filtering a run of records that share one category keeps all of it or none of it. */
  lemma FilterRun(run: seq<RoleDefinition>, runCat: Category, cat: Category)
    requires forall i :: 0 <= i < |run| ==> run[i].category == runCat
    ensures FilterByCategory(run, cat) == if cat == runCat then run else []
  {
    if cat == runCat {
      AllInCategory(run, cat);
    } else {
      NoneInCategory(run, cat);
    }
  }

  /** Piece by piece: the catalog's layout as five runs of one category each. */
  ghost predicate HasCatalogLayout(d: seq<RoleDefinition>) {
    && |d| == 14
    && (forall i :: 0 <= i < 4 ==> d[i].category == Structural)
    && (forall i :: (4 <= i < 10 || 11 <= i < 13) ==> d[i].category == Operational)
    && d[10].category == Oversight && d[13].category == Oversight
  }

  /** A leading run of one category is kept whole or dropped whole. */
  lemma FilterRunThen(run: seq<RoleDefinition>, rest: seq<RoleDefinition>, runCat: Category, cat: Category)
    requires forall i :: 0 <= i < |run| ==> run[i].category == runCat
    ensures FilterByCategory(run + rest, cat) ==
            (if cat == runCat then run else []) + FilterByCategory(rest, cat)
  {
    FilterByCategoryConcat(run, rest, cat);
    FilterRun(run, runCat, cat);
  }

  /** Filtering 14 records with the catalog's layout, run by run. */
  lemma FilterCatalogRuns(d: seq<RoleDefinition>, cat: Category)
    requires HasCatalogLayout(d)
    ensures FilterByCategory(d, cat) ==
            (if cat == Structural then d[0..4] else []) +
            ((if cat == Operational then d[4..10] else []) +
            ((if cat == Oversight then [d[10]] else []) +
            ((if cat == Operational then d[11..13] else []) +
            (if cat == Oversight then [d[13]] else []))))
  {
    assert d == d[0..4] + d[4..];
    FilterRunThen(d[0..4], d[4..], Structural, cat);
    assert d[4..] == d[4..10] + d[10..];
    FilterRunThen(d[4..10], d[10..], Operational, cat);
    assert d[10..] == [d[10]] + d[11..];
    FilterRunThen([d[10]], d[11..], Oversight, cat);
    assert d[11..] == d[11..13] + d[13..];
    FilterRunThen(d[11..13], d[13..], Operational, cat);
    assert d[13..] == [d[13]];
    FilterRun([d[13]], Oversight, cat);
  }

  /** Filtering 14 records with the catalog's layout keeps the first four for the structural tier. */
  lemma FilterCatalogStructural(d: seq<RoleDefinition>)
    requires HasCatalogLayout(d)
    ensures FilterByCategory(d, Structural) == d[0..4]
  {
    var none: seq<RoleDefinition> := [];
    FilterCatalogRuns(d, Structural);
    assert d[0..4] + (none + (none + (none + none))) == d[0..4];
  }

  /** Filtering 14 records with the catalog's layout keeps the two operational runs. */
  lemma FilterCatalogOperational(d: seq<RoleDefinition>)
    requires HasCatalogLayout(d)
    ensures FilterByCategory(d, Operational) == d[4..10] + d[11..13]
  {
    var none: seq<RoleDefinition> := [];
    FilterCatalogRuns(d, Operational);
    assert none + (d[4..10] + (none + (d[11..13] + none))) == d[4..10] + d[11..13];
  }

  /** Filtering 14 records with the catalog's layout keeps the two validation records. */
  lemma FilterCatalogOversight(d: seq<RoleDefinition>)
    requires HasCatalogLayout(d)
    ensures FilterByCategory(d, Oversight) == [d[10], d[13]]
  {
    var none: seq<RoleDefinition> := [];
    FilterCatalogRuns(d, Oversight);
    assert none + (none + ([d[10]] + (none + [d[13]]))) == [d[10], d[13]];
  }

  /**
   * The structural records, in declaration order: conceptualization,
   * methodology, funding acquisition and project administration.
   */
  lemma StructuralRoles()
    ensures GetRolesByCategory(Structural) == RoleDefinitions[0..4]
  {
    CatalogLayout();
    FilterCatalogStructural(RoleDefinitions);
  }

  /** The eight operational records, in declaration order. */
  lemma OperationalRoles()
    ensures GetRolesByCategory(Operational) == RoleDefinitions[4..10] + RoleDefinitions[11..13]
  {
    CatalogLayout();
    FilterCatalogOperational(RoleDefinitions);
  }

  /** The validation-tier records, in declaration order: validation, then supervision. */
  lemma ValidationTierRoles()
    ensures GetRolesByCategory(Oversight) == [RoleDefinitions[10], RoleDefinitions[13]]
  {
    CatalogLayout();
    FilterCatalogOversight(RoleDefinitions);
  }

  lemma CatalogLayout()
    ensures HasCatalogLayout(RoleDefinitions)
  {
  }

  /** Filtering records that all have category `cat` keeps them all. */
  lemma {:induction false} AllInCategory(s: seq<RoleDefinition>, cat: Category)
    requires forall i :: 0 <= i < |s| ==> s[i].category == cat
    ensures FilterByCategory(s, cat) == s
  {
    if s != [] {
      AllInCategory(s[1..], cat);
    }
  }

  /** Filtering records none of which has category `cat` keeps none. */
  lemma {:induction false} NoneInCategory(s: seq<RoleDefinition>, cat: Category)
    requires forall i :: 0 <= i < |s| ==> s[i].category != cat
    ensures FilterByCategory(s, cat) == []
  {
    if s != [] {
      NoneInCategory(s[1..], cat);
    }
  }

  // --------------------------------------------------------------------------
  // Workflow order and dependencies
  // --------------------------------------------------------------------------

  /** The workflow orders are 1..14 in declaration order, so they are distinct. */
  lemma WorkflowOrdersAreOneToFourteen()
    ensures |RoleDefinitions| == 14
    ensures forall i :: 0 <= i < |RoleDefinitions| ==> RoleDefinitions[i].workflowOrder == i + 1
    ensures forall i, j :: (0 <= i < |RoleDefinitions| && 0 <= j < |RoleDefinitions| &&
              RoleDefinitions[i].workflowOrder == RoleDefinitions[j].workflowOrder) ==> i == j
  {
  }

  /** The workflow order of a credit role's record. */
  function WorkflowOrderOf(c: CreditRoleId): int {
    match GetRoleDefinition(c)
    case Some(r) => r.workflowOrder
    case None => 0
  }

  /** The dependencies declared by a credit role's record. */
  function DependenciesOf(c: CreditRoleId): seq<CreditRoleId> {
    match GetRoleDefinition(c)
    case Some(r) => r.dependsOn
    case None => []
  }

  /** The workflow order of the record at position `i` is `i + 1`. */
  lemma WorkflowOrderAt(i: nat)
    requires i < |RoleDefinitions|
    ensures RoleDefinitions[i].workflowOrder == i + 1
  {
  }

  /** Each dependency's record is declared before the record that names it. */
  lemma DependencyPositionsEarlier(i: nat, d: CreditRoleId)
    requires i < |RoleDefinitions| && d in RoleDefinitions[i].dependsOn
    ensures PositionOf(d) < i
  {
  }

  /**
   * A dependency `d` of the record at position `i` names an existing
   * record whose workflow order is smaller.
   */
  lemma DependencyPrecedes(i: nat, d: CreditRoleId)
    requires i < |RoleDefinitions| && d in RoleDefinitions[i].dependsOn
    ensures GetRoleDefinition(d).Some?
    ensures WorkflowOrderOf(d) < RoleDefinitions[i].workflowOrder
  {
    GetRoleDefinitionIsTotal(d);
    DependencyPositionsEarlier(i, d);
    WorkflowOrderAt(i);
    WorkflowOrderAt(PositionOf(d));
  }

  /**
   * A dependency `d` of `c` names an existing record, and it comes strictly
   * earlier in the workflow than `c`: no self-reference, no forward reference.
   */
  lemma DependencyComesEarlier(c: CreditRoleId, d: CreditRoleId)
    requires d in DependenciesOf(c)
    ensures GetRoleDefinition(d).Some?
    ensures WorkflowOrderOf(d) < WorkflowOrderOf(c)
  {
    GetRoleDefinitionIsTotal(c);
    var i := PositionOf(c);
    assert DependenciesOf(c) == RoleDefinitions[i].dependsOn;
    assert WorkflowOrderOf(c) == RoleDefinitions[i].workflowOrder;
    DependencyPrecedes(i, d);
  }

  /** `p` follows dependency edges: each role depends on the one before it. */
  ghost predicate IsDependencyPath(p: seq<CreditRoleId>) {
    forall k :: 0 <= k < |p| - 1 ==> p[k + 1] in DependenciesOf(p[k])
  }

  /** Along a dependency path the workflow order drops by at least one per step. */
  lemma {:induction false} DependencyPathDescends(p: seq<CreditRoleId>)
    requires |p| >= 1 && IsDependencyPath(p)
    ensures WorkflowOrderOf(p[|p| - 1]) <= WorkflowOrderOf(p[0]) - (|p| - 1)
  {
    if |p| > 1 {
      var q := p[..|p| - 1];
      assert IsDependencyPath(q) by {
        forall k | 0 <= k < |q| - 1 ensures q[k + 1] in DependenciesOf(q[k]) {
          assert q[k] == p[k] && q[k + 1] == p[k + 1];
        }
      }
      DependencyPathDescends(q);
      DependencyComesEarlier(p[|p| - 2], p[|p| - 1]);
    }
  }

  /** The dependency relation is acyclic: no path of one or more edges returns to its start. */
  lemma DependenciesAcyclic(p: seq<CreditRoleId>)
    requires |p| > 1 && IsDependencyPath(p)
    ensures p[0] != p[|p| - 1]
  {
    DependencyPathDescends(p);
  }

  // --------------------------------------------------------------------------
  // getRolesInWorkflowOrder
  // --------------------------------------------------------------------------

  /** Taking off the first element takes one copy of it out of the multiset. */
  lemma MultisetOfTail(s: seq<RoleDefinition>)
    requires s != []
    ensures multiset(s[1..]) == multiset(s) - multiset{s[0]}
  {
    assert s == [s[0]] + s[1..];
  }

  /**
   * Two sorted arrangements of the same records, where no two records of the
   * first share an order, start with the same record.
   */
  lemma SortedArrangementsShareHead(a: seq<RoleDefinition>, b: seq<RoleDefinition>)
    requires a != [] && SortedByWorkflowOrder(a) && SortedByWorkflowOrder(b)
    requires multiset(a) == multiset(b)
    requires forall i, j :: 0 <= i < j < |a| ==> a[i].workflowOrder != a[j].workflowOrder
    ensures b != [] && a[0] == b[0]
  {
    assert a[0] in multiset(b);
    var m :| 0 <= m < |b| && b[m] == a[0];
    assert b[0] in multiset(a);
    var k :| 0 <= k < |a| && a[k] == b[0];
    assert a[0].workflowOrder <= a[k].workflowOrder == b[0].workflowOrder <= b[m].workflowOrder;
  }

  /**
   * Two sequences sorted by workflow order, holding the same records, with
   * no two records of `a` sharing an order, are the same sequence.
   */
  lemma {:induction false} SortedPermutationUnique(a: seq<RoleDefinition>, b: seq<RoleDefinition>)
    requires SortedByWorkflowOrder(a) && SortedByWorkflowOrder(b)
    requires multiset(a) == multiset(b)
    requires forall i, j :: 0 <= i < j < |a| ==> a[i].workflowOrder != a[j].workflowOrder
    ensures a == b
  {
    if a == [] {
      assert |b| == |multiset(b)| == 0;
    } else {
      SortedArrangementsShareHead(a, b);
      MultisetOfTail(a);
      MultisetOfTail(b);
      SortedPermutationUnique(a[1..], b[1..]);
      assert a == [a[0]] + a[1..] && b == [b[0]] + b[1..];
    }
  }

  /**
   * The catalog is already in workflow order, so the only sorted
   * rearrangement of it is the catalog itself.
   */
  lemma WorkflowOrderIsDeclarationOrder(s: seq<RoleDefinition>)
    requires SortedByWorkflowOrder(s) && multiset(s) == multiset(RoleDefinitions)
    ensures s == RoleDefinitions
    ensures forall i :: 0 <= i < |s| ==> s[i].workflowOrder == i + 1
  {
    WorkflowOrdersAreOneToFourteen();
    NumberedIsOnlySortedArrangement(RoleDefinitions, s);
  }

  /** A sequence numbered 1, 2, 3, ... is the only sorted arrangement of its records. */
  lemma NumberedIsOnlySortedArrangement(a: seq<RoleDefinition>, s: seq<RoleDefinition>)
    requires forall i :: 0 <= i < |a| ==> a[i].workflowOrder == i + 1
    requires SortedByWorkflowOrder(s) && multiset(s) == multiset(a)
    ensures s == a
    ensures forall i :: 0 <= i < |s| ==> s[i].workflowOrder == i + 1
  {
    SortedPermutationUnique(a, s);
  }

  /** A client of the registry: the sorted copy is the catalog, in order 1..14. */
  method RolesInWorkflowOrderAreCatalog() returns (roles: seq<RoleDefinition>)
    ensures roles == RoleDefinitions
    ensures |roles| == 14
    ensures forall i :: 0 <= i < |roles| ==> roles[i].workflowOrder == i + 1
  {
    var a := GetRolesInWorkflowOrder();
    WorkflowOrderIsDeclarationOrder(a[..]);
    roles := a[..];
  }

  // --------------------------------------------------------------------------
  // Minified projection
  // --------------------------------------------------------------------------

  /** The category codes are distinct, so the code determines the category. */
  lemma CategoryCodeRoundTrip(cat: Category)
    ensures CategoryOfCode(CategoryCode(cat)) == Some(cat)
  {
  }

  /** The projection loses nothing: expanding a minified record gives the record back. */
  lemma MinifyRoundTrip(r: RoleDefinition)
    ensures Expand(Minify(r)) == Some(r)
  {
    CategoryCodeRoundTrip(r.category);
  }

  /**
   * The minified catalog has one element per record, in record order, with
   * the id, governance role, order and dependencies copied and a one-letter
   * category code.
   */
  lemma MinifiedCatalogShape()
    ensures |CreditRolesMinified| == |RoleDefinitions|
    ensures forall i :: 0 <= i < |RoleDefinitions| ==>
              var m, r := CreditRolesMinified[i], RoleDefinitions[i];
              m.id == r.id && m.gov == r.governanceRole && m.ord == r.workflowOrder &&
              m.dep == r.dependsOn && m.cat in {'s', 'o', 'v'} &&
              Expand(m) == Some(r)
  {
    MinifyAllShape(RoleDefinitions);
  }

  /** The projection of any list of records, element by element. */
  lemma MinifyAllShape(defs: seq<RoleDefinition>)
    ensures |MinifyAll(defs)| == |defs|
    ensures forall i :: 0 <= i < |defs| ==>
              var m, r := MinifyAll(defs)[i], defs[i];
              m.id == r.id && m.gov == r.governanceRole && m.ord == r.workflowOrder &&
              m.dep == r.dependsOn && m.cat in {'s', 'o', 'v'} &&
              Expand(m) == Some(r)
  {
    forall i | 0 <= i < |defs| ensures Expand(MinifyAll(defs)[i]) == Some(defs[i]) {
      MinifyRoundTrip(defs[i]);
    }
  }
}
