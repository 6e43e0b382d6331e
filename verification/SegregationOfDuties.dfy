/** Who may approve whose work. Every rule is a pure predicate over the role catalog. */
module SegregationOfDuties {
  import opened Wrappers

  datatype Violation = SelfApproval | SameRole | UnauthorizedReviewer

  /** A role's review clauses; a role without them has empty lists. */
  datatype RoleEntry = RoleEntry(mustBeReviewedBy: seq<string>, canReview: seq<string>)

  datatype Catalog = Catalog(roles: map<string, RoleEntry>, universalApprovers: seq<string>)

  function DeclaredReviewers(catalog: Catalog, owningRole: string): seq<string> {
    if owningRole in catalog.roles then catalog.roles[owningRole].mustBeReviewedBy else []
  }

  function DeclaredReviewScope(catalog: Catalog, approverRole: string): seq<string> {
    if approverRole in catalog.roles then catalog.roles[approverRole].canReview else []
  }

  /** enforceSameRole records that the governed task manager has never applied the same-role rule. */
  function ApprovalViolation(actor: string, approver: string, owningRole: string, approverRole: string,
                             enforceSameRole: bool): Option<Violation> {
    if approver == actor then Some(SelfApproval)
    else if enforceSameRole && approverRole == owningRole then Some(SameRole)
    else None
  }

  predicate ReviewerAuthorityViolation(catalog: Catalog, owningRole: string, approverRole: string) {
    if approverRole in DeclaredReviewers(catalog, owningRole) || approverRole in catalog.universalApprovers then
      false
    else
      owningRole !in DeclaredReviewScope(catalog, approverRole)
  }

  /** The whole approval decision: identity first, then authority. */
  function ApprovalSodVerdict(catalog: Catalog, actor: string, approver: string, owningRole: string,
                              approverRole: string, enforceSameRole: bool): (r: Option<Violation>)
    // Clean exactly when two ids, and (where asked for) two roles, and a mandate to review are involved.
    ensures r.None? <==>
            && actor != approver
            && (enforceSameRole ==> owningRole != approverRole)
            && (|| (owningRole in catalog.roles && approverRole in catalog.roles[owningRole].mustBeReviewedBy)
                || approverRole in catalog.universalApprovers
                || (approverRole in catalog.roles && owningRole in catalog.roles[approverRole].canReview))
    // The violation told is the first the rules come to.
    ensures r == Some(SelfApproval) <==> actor == approver
    ensures r == Some(SameRole) <==> actor != approver && enforceSameRole && owningRole == approverRole
  {
    match ApprovalViolation(actor, approver, owningRole, approverRole, enforceSameRole)
    case Some(v) => Some(v)
    case None =>
      if ReviewerAuthorityViolation(catalog, owningRole, approverRole) then Some(UnauthorizedReviewer) else None
  }
}
