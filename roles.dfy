/**
 * The CRediT contributor-roles registry (ANSI/NISO Z39.104-2022): the 14
 * credit-role identifiers, the 14 governance-role identifiers, the
 * credit-to-governance map, the table of role records, and the read-only
 * queries over them.
 */
module CreditRoles {

  datatype Option<T> = None | Some(value: T)

  // --------------------------------------------------------------------------
  // Identifiers
  // --------------------------------------------------------------------------

  /** The 14 CRediT roles, in the order the registry declares them. */
  datatype CreditRoleId =
    | Conceptualization
    | DataCuration
    | FormalAnalysis
    | FundingAcquisition
    | Investigation
    | Methodology
    | ProjectAdministration
    | Resources
    | Software
    | Supervision
    | Validation
    | Visualization
    | WritingOriginalDraft
    | WritingReviewEditing

  /** The snake-case string each credit role is at run time. */
  function CreditRoleName(c: CreditRoleId): string {
    match c
    case Conceptualization => "conceptualization"
    case DataCuration => "data_curation"
    case FormalAnalysis => "formal_analysis"
    case FundingAcquisition => "funding_acquisition"
    case Investigation => "investigation"
    case Methodology => "methodology"
    case ProjectAdministration => "project_administration"
    case Resources => "resources"
    case Software => "software"
    case Supervision => "supervision"
    case Validation => "validation"
    case Visualization => "visualization"
    case WritingOriginalDraft => "writing_original_draft"
    case WritingReviewEditing => "writing_review_editing"
  }

  /**
   * The credit roles as the registry enumerates them; the keys of the
   * credit-to-governance map are listed in this same order, so this is also
   * the order in which its entries are visited.
   */
  const CreditRoleIds: seq<CreditRoleId> := [
    Conceptualization, DataCuration, FormalAnalysis, FundingAcquisition,
    Investigation, Methodology, ProjectAdministration, Resources, Software,
    Supervision, Validation, Visualization, WritingOriginalDraft,
    WritingReviewEditing
  ]

  /** The 14 governance roles, grouped in three tiers. */
  datatype GovernanceRoleId =
    // structural / conceptual governance
    | GovernanceArchitecture
    | GovernanceMethodDesign
    | GovernanceExecutionOrchestration
    | GovernanceResourceAllocation
    // operational / execution roles
    | OpsDataCollection
    | OpsDataGovernance
    | OpsAnalysis
    | OpsSoftwareEngineering
    | OpsResourceProvider
    | OpsVisualization
    | OpsAuthoringDraft
    | OpsAuthoringReview
    // validation / oversight roles
    | QaValidation
    | QaSupervision

  /** The dotted string each governance role is at run time. */
  function GovernanceRoleName(g: GovernanceRoleId): string {
    match g
    case GovernanceArchitecture => "governance.architecture"
    case GovernanceMethodDesign => "governance.method-design"
    case GovernanceExecutionOrchestration => "governance.execution-orchestration"
    case GovernanceResourceAllocation => "governance.resource-allocation"
    case OpsDataCollection => "ops.data-collection"
    case OpsDataGovernance => "ops.data-governance"
    case OpsAnalysis => "ops.analysis"
    case OpsSoftwareEngineering => "ops.software-engineering"
    case OpsResourceProvider => "ops.resource-provider"
    case OpsVisualization => "ops.visualization"
    case OpsAuthoringDraft => "ops.authoring-draft"
    case OpsAuthoringReview => "ops.authoring-review"
    case QaValidation => "qa.validation"
    case QaSupervision => "qa.supervision"
  }

  /** The three role categories. */
  datatype Category = Structural | Operational | Oversight

  /** The string each category is at run time; `Oversight` is 'validation'. */
  function CategoryName(cat: Category): string {
    match cat
    case Structural => "structural"
    case Operational => "operational"
    case Oversight => "validation"
  }

  // --------------------------------------------------------------------------
  // The credit-to-governance map
  // --------------------------------------------------------------------------

  const CreditToGovernanceMap: map<CreditRoleId, GovernanceRoleId> := map[
    Conceptualization := GovernanceArchitecture,
    DataCuration := OpsDataGovernance,
    FormalAnalysis := OpsAnalysis,
    FundingAcquisition := GovernanceResourceAllocation,
    Investigation := OpsDataCollection,
    Methodology := GovernanceMethodDesign,
    ProjectAdministration := GovernanceExecutionOrchestration,
    Resources := OpsResourceProvider,
    Software := OpsSoftwareEngineering,
    Supervision := QaSupervision,
    Validation := QaValidation,
    Visualization := OpsVisualization,
    WritingOriginalDraft := OpsAuthoringDraft,
    WritingReviewEditing := OpsAuthoringReview
  ]

  /** Every credit role is listed in `CreditRoleIds`. */
  lemma AllCreditRolesListed()
    ensures forall c :: c in CreditRoleIds
  {
    forall c ensures c in CreditRoleIds {
      match c
      case Conceptualization =>
      case DataCuration =>
      case FormalAnalysis =>
      case FundingAcquisition =>
      case Investigation =>
      case Methodology =>
      case ProjectAdministration =>
      case Resources =>
      case Software =>
      case Supervision =>
      case Validation =>
      case Visualization =>
      case WritingOriginalDraft =>
      case WritingReviewEditing =>
    }
  }

  /** Every credit role is a key of the map. */
  lemma MapIsTotal(c: CreditRoleId)
    ensures c in CreditToGovernanceMap
  {
    match c
    case Conceptualization =>
    case DataCuration =>
    case FormalAnalysis =>
    case FundingAcquisition =>
    case Investigation =>
    case Methodology =>
    case ProjectAdministration =>
    case Resources =>
    case Software =>
    case Supervision =>
    case Validation =>
    case Visualization =>
    case WritingOriginalDraft =>
    case WritingReviewEditing =>
  }

  /** `getGovernanceRole`: indexing the map, total over the credit roles. */
  function GetGovernanceRole(c: CreditRoleId): GovernanceRoleId {
    MapIsTotal(c);
    CreditToGovernanceMap[c]
  }

  // --------------------------------------------------------------------------
  // Role records
  // --------------------------------------------------------------------------

  /** A role record without its free-text names and descriptions. */
  datatype RoleDefinition = RoleDefinition(
    id: CreditRoleId,
    category: Category,
    governanceRole: GovernanceRoleId,
    dependsOn: seq<CreditRoleId>,
    workflowOrder: int)

  /** The 14 records, in declaration order (which is also workflow order). */
  const RoleDefinitions: seq<RoleDefinition> := [
    RoleDefinition(Conceptualization, Structural, GovernanceArchitecture, [], 1),
    RoleDefinition(Methodology, Structural, GovernanceMethodDesign, [Conceptualization], 2),
    RoleDefinition(FundingAcquisition, Structural, GovernanceResourceAllocation, [Conceptualization], 3),
    RoleDefinition(ProjectAdministration, Structural, GovernanceExecutionOrchestration,
                   [Conceptualization, Methodology], 4),
    RoleDefinition(Resources, Operational, OpsResourceProvider, [FundingAcquisition], 5),
    RoleDefinition(Investigation, Operational, OpsDataCollection, [Methodology, Resources], 6),
    RoleDefinition(DataCuration, Operational, OpsDataGovernance, [Investigation], 7),
    RoleDefinition(FormalAnalysis, Operational, OpsAnalysis, [DataCuration], 8),
    RoleDefinition(Software, Operational, OpsSoftwareEngineering, [Methodology], 9),
    RoleDefinition(Visualization, Operational, OpsVisualization, [FormalAnalysis], 10),
    RoleDefinition(Validation, Oversight, QaValidation, [FormalAnalysis, Software], 11),
    RoleDefinition(WritingOriginalDraft, Operational, OpsAuthoringDraft, [FormalAnalysis, Visualization], 12),
    RoleDefinition(WritingReviewEditing, Operational, OpsAuthoringReview, [WritingOriginalDraft], 13),
    RoleDefinition(Supervision, Oversight, QaSupervision, [Validation], 14)
  ]

  // --------------------------------------------------------------------------
  // Queries
  // --------------------------------------------------------------------------

  /**
   * The first record of `defs` whose id, as a string, equals `key`
   * (`Array.prototype.find` with `===`), or None.
   */
  function FindRole(defs: seq<RoleDefinition>, key: string): Option<RoleDefinition> {
    if defs == [] then None
    else if CreditRoleName(defs[0].id) == key then Some(defs[0])
    else FindRole(defs[1..], key)
  }

  /** `getRoleDefinition`: the record for a credit role, if any. */
  function GetRoleDefinition(roleId: CreditRoleId): Option<RoleDefinition> {
    FindRole(RoleDefinitions, CreditRoleName(roleId))
  }

  /**
   * The records of `defs` with category `cat`, in their order in `defs`
   * (`Array.prototype.filter`).
   */
  function FilterByCategory(defs: seq<RoleDefinition>, cat: Category): seq<RoleDefinition> {
    if defs == [] then []
    else (if defs[0].category == cat then [defs[0]] else []) + FilterByCategory(defs[1..], cat)
  }

  /** `getRolesByCategory`. */
  function GetRolesByCategory(cat: Category): seq<RoleDefinition> {
    FilterByCategory(RoleDefinitions, cat)
  }

  /**
   * The first credit role, in the order the map's entries are visited, that
   * the map sends to `g`: the specification of `GetCreditRole`.
   */
  function FirstCreditRoleFor(keys: seq<CreditRoleId>, g: GovernanceRoleId): (r: Option<CreditRoleId>)
    ensures r.Some? ==> r.value in keys && GetGovernanceRole(r.value) == g
    ensures r.None? <==> forall k :: k in keys ==> GetGovernanceRole(k) != g
  {
    if keys == [] then None
    else if GetGovernanceRole(keys[0]) == g then Some(keys[0])
    else FirstCreditRoleFor(keys[1..], g)
  }

  /**
   * `getCreditRole`: scans the map's entries and returns the first credit
   * role mapped to `g`. Every governance role has one, so the scan never
   * comes back empty.
   */
  method GetCreditRole(g: GovernanceRoleId) returns (r: Option<CreditRoleId>)
    ensures r == FirstCreditRoleFor(CreditRoleIds, g)
    ensures r.Some? ==> GetGovernanceRole(r.value) == g
    ensures r.None? ==> forall c :: GetGovernanceRole(c) != g
  {
    r := ScanEntries(CreditRoleIds, g);
    AllCreditRolesListed();
  }

  /**
   * The loop of `getCreditRole`: visits the entries `(credit, map[credit])`
   * for `credit` in `keys`, in order, and returns the first credit role
   * whose governance role is `g`.
   */
  method ScanEntries(keys: seq<CreditRoleId>, g: GovernanceRoleId) returns (r: Option<CreditRoleId>)
    ensures r == FirstCreditRoleFor(keys, g)
    ensures r.Some? ==> r.value in keys && GetGovernanceRole(r.value) == g
    ensures r.None? ==> forall k :: k in keys ==> GetGovernanceRole(k) != g
  {
    for i := 0 to |keys|
      invariant FirstCreditRoleFor(keys[i..], g) == FirstCreditRoleFor(keys, g)
    {
      var credit := keys[i];
      var gov := GetGovernanceRole(credit);
      assert keys[i..] == [credit] + keys[i + 1..];
      if gov == g {
        return Some(credit);
      }
    }
    return None;
  }

  /** A credit role the map sends to `g` (a witness that the map is onto). */
  function GovernanceOwner(g: GovernanceRoleId): (c: CreditRoleId)
    ensures GetGovernanceRole(c) == g
  {
    match g
    case GovernanceArchitecture => Conceptualization
    case GovernanceMethodDesign => Methodology
    case GovernanceExecutionOrchestration => ProjectAdministration
    case GovernanceResourceAllocation => FundingAcquisition
    case OpsDataCollection => Investigation
    case OpsDataGovernance => DataCuration
    case OpsAnalysis => FormalAnalysis
    case OpsSoftwareEngineering => Software
    case OpsResourceProvider => Resources
    case OpsVisualization => Visualization
    case OpsAuthoringDraft => WritingOriginalDraft
    case OpsAuthoringReview => WritingReviewEditing
    case QaValidation => Validation
    case QaSupervision => Supervision
  }

  // --------------------------------------------------------------------------
  // Workflow order
  // --------------------------------------------------------------------------

  ghost predicate SortedByWorkflowOrder(s: seq<RoleDefinition>) {
    forall i, j :: 0 <= i < j < |s| ==> s[i].workflowOrder <= s[j].workflowOrder
  }

  /** Exchanges two elements of `a`, leaving the others where they were. */
  method Swap(a: array<RoleDefinition>, i: nat, j: nat)
    requires i < j < a.Length
    modifies a
    ensures a[..] == old(a[..])[i := old(a[j])][j := old(a[i])]
    ensures multiset(a[..]) == multiset(old(a[..]))
  {
    a[i], a[j] := a[j], a[i];
  }

  /**
   * Sorts `a` in place by ascending workflow order. Insertion sort, moving an
   * element left only past strictly larger ones, so equal keys keep their
   * order, as `Array.prototype.sort` does.
   */
  method SortByWorkflowOrder(a: array<RoleDefinition>)
    modifies a
    ensures SortedByWorkflowOrder(a[..])
    ensures multiset(a[..]) == multiset(old(a[..]))
  {
    var i := 0;
    while i < a.Length
      invariant 0 <= i <= a.Length
      invariant forall k, l :: 0 <= k < l < i ==> a[k].workflowOrder <= a[l].workflowOrder
      invariant multiset(a[..]) == multiset(old(a[..]))
    {
      var j := i;
      while 0 < j && a[j].workflowOrder < a[j - 1].workflowOrder
        invariant 0 <= j <= i
        invariant forall k, l :: 0 <= k < l <= i && l != j ==> a[k].workflowOrder <= a[l].workflowOrder
        invariant 0 < j < i ==> a[j - 1].workflowOrder <= a[j + 1].workflowOrder
        invariant multiset(a[..]) == multiset(old(a[..]))
      {
        Swap(a, j - 1, j);
        j := j - 1;
      }
      i := i + 1;
    }
  }

  /**
   * `getRolesInWorkflowOrder`: sorts a fresh copy of the catalog, which
   * itself is left as it was.
   */
  method GetRolesInWorkflowOrder() returns (roles: array<RoleDefinition>)
    ensures fresh(roles)
    ensures SortedByWorkflowOrder(roles[..])
    ensures multiset(roles[..]) == multiset(RoleDefinitions)
  {
    roles := new RoleDefinition[|RoleDefinitions|](i requires 0 <= i < |RoleDefinitions| => RoleDefinitions[i]);
    assert roles[..] == RoleDefinitions;
    SortByWorkflowOrder(roles);
  }

  // --------------------------------------------------------------------------
  // Minified projection
  // --------------------------------------------------------------------------

  /** One element of the minified catalog: `{id, cat, gov, ord, dep}`. */
  datatype MinifiedRole = MinifiedRole(
    id: CreditRoleId,
    cat: char,
    gov: GovernanceRoleId,
    ord: int,
    dep: seq<CreditRoleId>)

  /** The first character of the category's name. */
  function CategoryCode(cat: Category): (code: char)
    ensures code in {'s', 'o', 'v'}
  {
    CategoryName(cat)[0]
  }

  function Minify(r: RoleDefinition): MinifiedRole {
    MinifiedRole(r.id, CategoryCode(r.category), r.governanceRole, r.workflowOrder, r.dependsOn)
  }

  /** The record projection applied to each record, in order (`Array.prototype.map`). */
  function MinifyAll(defs: seq<RoleDefinition>): (m: seq<MinifiedRole>)
    ensures |m| == |defs|
    ensures forall i :: 0 <= i < |defs| ==> m[i] == Minify(defs[i])
  {
    if defs == [] then [] else [Minify(defs[0])] + MinifyAll(defs[1..])
  }

  /** The minified catalog, before its JSON encoding. */
  const CreditRolesMinified: seq<MinifiedRole> := MinifyAll(RoleDefinitions)

  /** Reads a category back from its one-character code. */
  function CategoryOfCode(code: char): (cat: Option<Category>)
    ensures cat.Some? ==> CategoryCode(cat.value) == code
  {
    if code == 's' then Some(Structural)
    else if code == 'o' then Some(Operational)
    else if code == 'v' then Some(Oversight)
    else None
  }

  /** Rebuilds a record from its minified form. */
  function Expand(m: MinifiedRole): Option<RoleDefinition> {
    match CategoryOfCode(m.cat)
    case None => None
    case Some(cat) => Some(RoleDefinition(m.id, cat, m.gov, m.dep, m.ord))
  }
}
